/** Crash recovery: an ordered dry-run ends in the world of the crash-free run, record, .env file and policy alike. */
module CrashRecovery {
  import opened Records
  import opened Ledgers
  import opened Handlers
  import opened Sessions
  import opened DryRun
  import opened Convergence
  import opened Groups
  import opened Deliveries
  import opened Driver
  import opened OrderedRuns

  predicate Same(l: Ledger, l': Ledger, k: Key) {
    (k in l <==> k in l') && (k in l ==> l[k] == l'[k])
  }

  /** The record that config renders: five groups filled in. */
  function Rendered(cfg: Settings, r: Record): Record {
    AllWith(cfg, 5, r)
  }

  predicate FileDone(cfg: Settings, r: Record, l: Ledger) {
    var k := EnvFileKey(cfg, r.id);
    k in l && l[k] == FileItem(EnvFileOf(cfg, Rendered(cfg, r)))
  }

  predicate PolicyDone(cfg: Settings, r: Record, l0: Ledger, l: Ledger) {
    var k := PolicyKeyOf(r.id);
    k !in l0 && k in l && l[k] == PolicyOf(cfg, r.id)
  }

  /** The world outside the store, seen from the record r and the ledger l0 that the run started from. */
  ghost predicate Outside(cfg: Settings, r: Record, l0: Ledger, l: Ledger) {
    && (forall k :: k != EnvFileKey(cfg, r.id) && k != PolicyKeyOf(r.id) ==> Same(l0, l, k))
    && (Same(l0, l, EnvFileKey(cfg, r.id)) || (!Marked(Config, r) && FileDone(cfg, r, l)))
    && (Same(l0, l, PolicyKeyOf(r.id)) || (cfg.connected && !Marked(Identity, r) && PolicyDone(cfg, r, l0, l)))
  }

  /** A forward handler, whenever it loaded the record. */
  predicate Forwards(cfg: Settings, r: Record, l0: Ledger, l: Ledger, handler: Handler) {
    && handler.dir == Forward
    && match handler.stage
       case Working(local, prog, pc) =>
         && IdentOf(local) == IdentOf(r) && local.id == r.id && local.dryRun
         && prog == DryProgram(cfg, handler.step, Forward, r)
         && (handler.step == Health && pc >= 2 ==> !r.failAtHealth)
         && (handler.step == Config ==> ConfigForwards(cfg, r, l, local, pc))
         && (Remote(cfg, handler.step) ==> IdentityForwards(cfg, r, l0, l, local, pc))
       case Replied(answer) => answer == Acked && handler.step == Health ==> !r.failAtHealth
       case _ => true
  }

  predicate ConfigForwards(cfg: Settings, r: Record, l: Ledger, local: Record, pc: nat) {
    && EnvFileOf(cfg, local) == EnvFileOf(cfg, Rendered(cfg, r))
    && (Marked(Config, r) ==> Marked(Config, local) && pc == 0)
    && (pc >= 2 ==> FileDone(cfg, r, l))
  }

  predicate IdentityForwards(cfg: Settings, r: Record, l0: Ledger, l: Ledger, local: Record, pc: nat) {
    && (Marked(Identity, r) ==> Marked(Identity, local) && pc == 0)
    && (pc >= 2 ==> PolicyDone(cfg, r, l0, l))
  }

  // ----- one action -----

  /** From l to l', what is done stays done. */
  predicate Grows(cfg: Settings, r: Record, l0: Ledger, l: Ledger, l': Ledger) {
    && (FileDone(cfg, r, l) ==> FileDone(cfg, r, l'))
    && (PolicyDone(cfg, r, l0, l) ==> PolicyDone(cfg, r, l0, l'))
  }

  /** What one action of a forward handler does outside the store. */
  ghost predicate ActionOk(cfg: Settings, r: Record, l0: Ledger, l: Ledger, step: Step, v: Verdict) {
    && Outside(cfg, r, l0, v.world.ledger) && Grows(cfg, r, l0, l, v.world.ledger)
    && (step != Config ==> Same(l, v.world.ledger, EnvFileKey(cfg, r.id)))
    && (!Remote(cfg, step) ==> Same(l, v.world.ledger, PolicyKeyOf(r.id)))
  }

  ghost predicate At(cfg: Settings, r: Record, l0: Ledger, w: World, step: Step, local: Record, prog: seq<Action>,
                     pc: nat) {
    && pc < |prog| && Outside(cfg, r, l0, w.ledger)
    && Forwards(cfg, r, l0, w.ledger, Handler(step, Forward, Working(local, prog, pc)))
  }

  ghost predicate Onward(cfg: Settings, r: Record, l0: Ledger, w: World, step: Step, prog: seq<Action>, pc: nat,
                         v: Verdict) {
    && ActionOk(cfg, r, l0, w.ledger, step, v) && v.world.issued == w.issued
    && match v
       case Go(w', local') => Forwards(cfg, r, l0, w'.ledger, Handler(step, Forward, Working(local', prog, pc + 1)))
       case Stop(w', answer) => Forwards(cfg, r, l0, w'.ledger, Handler(step, Forward, Replied(answer)))
  }

  lemma StaysOutside(cfg: Settings, r: Record, l0: Ledger, l: Ledger, step: Step, v: Verdict)
    requires Outside(cfg, r, l0, l) && v.world.ledger == l
    ensures ActionOk(cfg, r, l0, l, step, v)
  {
  }

  lemma CheckOnward(cfg: Settings, r: Record, l0: Ledger, w: World, step: Step, local: Record, prog: seq<Action>,
                    pc: nat, o: Outcome)
    requires At(cfg, r, l0, w, step, local, prog, pc) && prog[pc] == Check
    ensures Onward(cfg, r, l0, w, step, prog, pc, Perform(cfg, step, Check, w, local, o))
  {
    hide Outside, FileDone, PolicyDone, ActionOk, EnvFileOf, With, Without, Perform;
    CheckIs(cfg, step, w, local, o);
    StaysOutside(cfg, r, l0, w.ledger, step, Perform(cfg, step, Check, w, local, o));
  }

  lemma LocalOnward(cfg: Settings, r: Record, l0: Ledger, w: World, step: Step, local: Record, prog: seq<Action>,
                    pc: nat, o: Outcome)
    requires At(cfg, r, l0, w, step, local, prog, pc) && (prog[pc] == Fill || prog[pc] == Put || prog[pc] == Probe)
    ensures Onward(cfg, r, l0, w, step, prog, pc, Perform(cfg, step, prog[pc], w, local, o))
  {
    hide Outside, FileDone, PolicyDone, ActionOk, EnvFileOf, With, Without, Rendered;
    GoalKeepsIdent(cfg, step, Forward, local);
    QuietLedger(cfg, step, prog[pc], w, local, o);
    StaysOutside(cfg, r, l0, w.ledger, step, Perform(cfg, step, prog[pc], w, local, o));
  }

  lemma LaterOnward(cfg: Settings, r: Record, l0: Ledger, w: World, step: Step, local: Record, prog: seq<Action>,
                    pc: nat, o: Outcome)
    requires At(cfg, r, l0, w, step, local, prog, pc)
             && (prog[pc] == VerifyPolicy || prog[pc] == ReloadPolicies || prog[pc] == NameEntries)
    ensures Onward(cfg, r, l0, w, step, prog, pc, Perform(cfg, step, prog[pc], w, local, o))
  {
    hide Outside, FileDone, PolicyDone, ActionOk, EnvFileOf, With, Without, Rendered, Perform, AppSpiffeId,
      DbProxySpiffeId;
    QuietLedger(cfg, step, prog[pc], w, local, o);
    LaterIs(cfg, prog[pc], w, local, o);
    StaysOutside(cfg, r, l0, w.ledger, step, Perform(cfg, step, prog[pc], w, local, o));
  }

  lemma WriteOnward(cfg: Settings, r: Record, l0: Ledger, w: World, step: Step, local: Record, prog: seq<Action>,
                    pc: nat, o: Outcome)
    requires At(cfg, r, l0, w, step, local, prog, pc) && prog[pc] == WriteEnvFile
    ensures Onward(cfg, r, l0, w, step, prog, pc, Perform(cfg, step, WriteEnvFile, w, local, o))
  {
    hide With, Without, Rendered, EnvPath, PolicyName, PolicyOf, Perform;
    assert step == Config && pc == 1;
    WriteIs(cfg, w, local, o);
    WriteLocal(cfg, w, local, o);
    OthersSame(cfg, r, l0, w.ledger, Perform(cfg, step, WriteEnvFile, w, local, o).world.ledger, EnvFileKey(cfg, r.id));
  }

  lemma OthersSame(cfg: Settings, r: Record, l0: Ledger, l: Ledger, l': Ledger, key: Key)
    requires Outside(cfg, r, l0, l) && l' == (if key in l' then l[key := l'[key]] else l)
             && (key == EnvFileKey(cfg, r.id) || key == PolicyKeyOf(r.id))
    ensures forall k :: k != EnvFileKey(cfg, r.id) && k != PolicyKeyOf(r.id) ==> Same(l0, l', k)
  {
    hide EnvPath, PolicyName, Rendered, EnvFileOf, PolicyOf;
    forall k | k != EnvFileKey(cfg, r.id) && k != PolicyKeyOf(r.id) ensures Same(l0, l', k) {
      assert Same(l0, l, k);
    }
  }

  lemma WriteLocal(cfg: Settings, w: World, r: Record, o: Outcome)
    ensures
      var v := Perform(cfg, Config, WriteEnvFile, w, r, o);
      && v.world.issued == w.issued
      && (v.Go? ==> v.local == r.(localEnvPath := EnvPath(cfg, r.id)))
      && (v.Stop? ==> v.answer == Refused)
  {
    hide EnvPath, EnvFileOf, With, Without;
  }

  lemma CreateOnward(cfg: Settings, r: Record, l0: Ledger, w: World, step: Step, local: Record, prog: seq<Action>,
                     pc: nat, o: Outcome)
    requires At(cfg, r, l0, w, step, local, prog, pc) && prog[pc] == CreatePolicy
    ensures Onward(cfg, r, l0, w, step, prog, pc, Perform(cfg, step, CreatePolicy, w, local, o))
  {
    hide With, Without, Rendered, EnvPath, PolicyName, PolicyOf, Perform, EnvFileOf;
    assert step == Identity && cfg.connected && pc == 1;
    CreatePolicyIs(cfg, w, local, o);
    OthersSame(cfg, r, l0, w.ledger, Perform(cfg, step, CreatePolicy, w, local, o).world.ledger, PolicyKeyOf(r.id));
  }

  lemma ForwardActions(cfg: Settings, step: Step, r: Record, pc: nat)
    requires pc < |DryProgram(cfg, step, Forward, r)|
    ensures
      var a := DryProgram(cfg, step, Forward, r)[pc];
      || a == Check || a == Fill || a == Put || a == Probe || a == WriteEnvFile
      || a == CreatePolicy || a == VerifyPolicy || a == ReloadPolicies || a == NameEntries
  {
  }

  lemma ActionOnward(cfg: Settings, r: Record, l0: Ledger, w: World, step: Step, local: Record, prog: seq<Action>,
                     pc: nat, o: Outcome)
    requires At(cfg, r, l0, w, step, local, prog, pc)
    ensures Onward(cfg, r, l0, w, step, prog, pc, Perform(cfg, step, prog[pc], w, local, o))
  {
    hide Onward, Outside, Perform, ConfigForwards, IdentityForwards;
    ForwardActions(cfg, step, r, pc);
    hide Forwards, DryProgram;
    match prog[pc] {
      case Check => CheckOnward(cfg, r, l0, w, step, local, prog, pc, o);
      case Fill | Put | Probe => LocalOnward(cfg, r, l0, w, step, local, prog, pc, o);
      case WriteEnvFile => WriteOnward(cfg, r, l0, w, step, local, prog, pc, o);
      case CreatePolicy => CreateOnward(cfg, r, l0, w, step, local, prog, pc, o);
      case VerifyPolicy | ReloadPolicies | NameEntries => LaterOnward(cfg, r, l0, w, step, local, prog, pc, o);
    }
  }

  // ----- a whole run -----

  lemma ForwardsGrows(cfg: Settings, r: Record, l0: Ledger, l: Ledger, l': Ledger, handler: Handler)
    requires Forwards(cfg, r, l0, l, handler) && Grows(cfg, r, l0, l, l')
    ensures Forwards(cfg, r, l0, l', handler)
  {
    hide FileDone, PolicyDone, EnvFileOf, DryProgram, Rendered;
  }

  ghost predicate Has(s: Sys, step: Step) {
    exists h: Hid :: h in s.handlers && s.handlers[h].step == step
  }

  /** What the record shows as done is done; what is done was done by a delivery. */
  ghost predicate Backed(cfg: Settings, r: Record, l0: Ledger, s: Sys, cur: Record) {
    && (Marked(Config, cur) ==> Marked(Config, r) || FileDone(cfg, r, s.world.ledger))
    && (cfg.connected && Marked(Identity, cur) ==> Marked(Identity, r) || PolicyDone(cfg, r, l0, s.world.ledger))
    && (Same(l0, s.world.ledger, EnvFileKey(cfg, r.id)) || Has(s, Config))
    && (Same(l0, s.world.ledger, PolicyKeyOf(r.id)) || Has(s, Identity))
  }

  ghost predicate Safe(cfg: Settings, w: World, id: EnvId, s: Sys, b: Book)
    requires Startable(cfg, 8, w, id)
  {
    var r := w.store[id];
    && Follows(cfg, 8, w, id, s, b)
    && Outside(cfg, r, w.ledger, s.world.ledger) && s.world.issued == w.issued
    && (forall h :: h in s.handlers ==> Forwards(cfg, r, w.ledger, s.world.ledger, s.handlers[h]))
    && id in s.world.store && Backed(cfg, r, w.ledger, s, s.world.store[id])
  }

  /** From config on, every record renders alike. */
  lemma {:induction false} LateRenders(cfg: Settings, r: Record, j: nat)
    requires 5 <= j <= 8
    ensures EnvFileOf(cfg, AllWith(cfg, j, r)) == EnvFileOf(cfg, Rendered(cfg, r))
  {
    if j > 5 {
      LateRenders(cfg, r, j - 1);
      hide AllWith, EnvPath;
      LateStepRenders(cfg, STEPS[j - 1], AllWith(cfg, j - 1, r));
      assert AllWith(cfg, j, r) == With(cfg, STEPS[j - 1], AllWith(cfg, j - 1, r)) by {
        hide With; AllWithStep(cfg, j, r);
      }
    }
  }

  lemma AllWithStep(cfg: Settings, j: nat, r: Record)
    requires 0 < j <= 8
    ensures AllWith(cfg, j, r) == With(cfg, STEPS[j - 1], AllWith(cfg, j - 1, r))
  {
    hide With;
  }

  lemma LateStepRenders(cfg: Settings, step: Step, r: Record)
    requires step == Config || step == Health || step == Registry
    ensures EnvFileOf(cfg, With(cfg, step, r)) == EnvFileOf(cfg, r)
  {
    hide EnvPath;
  }

  /** The record of a run is one of two. */
  lemma CurrentIs(cfg: Settings, w: World, id: EnvId, s: Sys, b: Book)
    requires Startable(cfg, 8, w, id) && Follows(cfg, 8, w, id, s, b)
    ensures b.m < 8 && id in s.world.store
    ensures s.world.store[id] == AllWith(cfg, b.m, w.store[id])
            || s.world.store[id] == AllWith(cfg, b.m + 1, w.store[id])
    ensures b.base == AllWith(cfg, b.m, w.store[id])
  {
    hide With, DryRecord, HandlerOk;
    AllWithStep(cfg, b.m + 1, w.store[id]);
  }

  lemma LoadRenders(cfg: Settings, w: World, id: EnvId, s: Sys, b: Book, h: Hid, j: nat)
    requires Startable(cfg, 8, w, id) && Safe(cfg, w, id, s, b) && h in s.handlers && s.handlers[h].step == Config
    requires j <= 8 && (j == b.m || j == b.m + 1) && id in s.world.store
             && s.world.store[id] == AllWith(cfg, j, w.store[id])
    ensures
      var cur := s.world.store[id];
      && EnvFileOf(cfg, cur) == EnvFileOf(cfg, Rendered(cfg, w.store[id]))
      && (Marked(Config, w.store[id]) ==> Marked(Config, cur))
  {
    hide AllWith, With, Without, Outside, EnvFileOf, Fits, Rendered, DryProgram, Program, Backed, Forwards, DryRecord,
      Marked;
    var r := w.store[id];
    AllWithMarks(cfg, j, r, Config);
    if j < 5 {
      FindsRecord(cfg, 8, w, id, s, b, h);
      AtFive(cfg, r);
    } else {
      LateRenders(cfg, r, j);
    }
  }

  lemma LoadForwards(cfg: Settings, w: World, id: EnvId, s: Sys, b: Book, h: Hid)
    requires Startable(cfg, 8, w, id) && Safe(cfg, w, id, s, b) && h in s.handlers
    ensures
      var handler := s.handlers[h];
      var cur := s.world.store[id];
      Forwards(cfg, w.store[id], w.ledger, s.world.ledger,
               Handler(handler.step, handler.dir, Working(cur, Program(cfg, handler.step, handler.dir, cur), 0)))
  {
    hide AllWith, With, Without, FileDone, PolicyDone, Outside, EnvFileOf, Fits, Rendered, DryProgram, Program, Backed;
    var r, handler, cur := w.store[id], s.handlers[h], s.world.store[id];
    assert HandlerOk(cfg, 8, id, s, b, h);
    CurrentIs(cfg, w, id, s, b);
    var j := if cur == AllWith(cfg, b.m, r) then b.m else b.m + 1;
    AllWithKeeps(cfg, j, r);
    DryProgramIs(cfg, handler.step, Forward, cur);
    ForwardProgramSame(cfg, handler.step, cur, r);
    assert cur.dryRun == r.dryRun == true;
    if handler.step == Config { LoadRenders(cfg, w, id, s, b, h, j); }
    if handler.step == Identity { AllWithMarks(cfg, j, r, Identity); }
  }

  lemma AtFive(cfg: Settings, r: Record)
    ensures RecordAt(cfg, 8, r, 5, false) == RecordAt(cfg, 8, r, 5, true) == Rendered(cfg, r)
  {
    hide AllWith;
  }

  lemma ForwardProgramSame(cfg: Settings, step: Step, r: Record, q: Record)
    ensures DryProgram(cfg, step, Forward, r) == DryProgram(cfg, step, Forward, q)
  {
  }

  /** An applied Put backs what it marks. */
  lemma PutBacked(cfg: Settings, w: World, id: EnvId, s: Sys, b: Book, h: Hid, o: Outcome)
    requires Startable(cfg, 8, w, id) && Safe(cfg, w, id, s, b) && Stores(s, Act(h, o))
             && Allowed(8, id, s, Act(h, o), b)
    ensures
      var r, local := w.store[id], s.handlers[h].stage.local;
      && (Marked(Config, local) ==> Marked(Config, r) || FileDone(cfg, r, s.world.ledger))
      && (cfg.connected && Marked(Identity, local) ==>
            Marked(Identity, r) || PolicyDone(cfg, r, w.ledger, s.world.ledger))
  {
    hide AllWith, With, Without, FileDone, PolicyDone, Outside, EnvFileOf, Rendered, Goal, DryRecord, Works;
    var handler, r, cur := s.handlers[h], w.store[id], s.world.store[id];
    assert HandlerOk(cfg, 8, id, s, b, h);
    PositionIsPlace(8, handler.step, handler.dir);
    assert Forwards(cfg, r, w.ledger, s.world.ledger, handler);
    PutHoldsGoal(cfg, handler.step, handler.dir, b.base, Stored(cfg, handler.step, handler.dir, b.base, id, s.world),
                 handler.stage);
    PutsComeLast(cfg, handler.step, r, handler.stage.pc);
    SameMarks(cfg, handler.step, b.base, Config);
    SameMarks(cfg, handler.step, b.base, Identity);
  }

  lemma SameMarks(cfg: Settings, step: Step, base: Record, t: Step)
    ensures step != t ==> Marked(t, Goal(cfg, step, Forward, base)) == Marked(t, base)
  {
    hide With, Without, Marked;
    if step != t { MarksElsewhere(cfg, t, step, base); }
  }

  lemma PutsComeLast(cfg: Settings, step: Step, r: Record, pc: nat)
    requires pc < |DryProgram(cfg, step, Forward, r)| && DryProgram(cfg, step, Forward, r)[pc] == Put
    ensures pc >= 2
  {
  }

  lemma ActSafe(cfg: Settings, w: World, id: EnvId, s: Sys, b: Book, h: Hid, o: Outcome)
    requires Startable(cfg, 8, w, id) && Safe(cfg, w, id, s, b) && h in s.handlers && Allowed(8, id, s, Act(h, o), b)
    ensures Safe(cfg, w, id, Advance(cfg, s, Act(h, o)), Noted(8, id, s, Act(h, o), b))
  {
    hide Follows, Outside, Forwards, FileDone, PolicyDone, DryRecord, ActionOk, Has;
    var r, l0 := w.store[id], w.ledger;
    var ev, handler := Act(h, o), s.handlers[h];
    var s' := Advance(cfg, s, ev);
    ActFollows(cfg, 8, w, id, s, b, h, o);
    HandlerTick(cfg, w, id, s, b, h, o);
    HasLasts(cfg, s, ev);
    forall g | g in s.handlers && g != h ensures Forwards(cfg, r, l0, s'.world.ledger, s'.handlers[g]) {
      ForwardsGrows(cfg, r, l0, s.world.ledger, s'.world.ledger, s.handlers[g]);
    }
  }

  lemma HasLasts(cfg: Settings, s: Sys, ev: Event)
    ensures Has(s, Config) ==> Has(Advance(cfg, s, ev), Config)
    ensures Has(s, Identity) ==> Has(Advance(cfg, s, ev), Identity)
  {
    hide Advance;
    if h: Hid :| h in s.handlers && s.handlers[h].step == Config { OtherHandlers(cfg, s, ev, h); }
    if h: Hid :| h in s.handlers && s.handlers[h].step == Identity { OtherHandlers(cfg, s, ev, h); }
  }

  /** One step of one handler, for the whole invariant. */
  lemma HandlerTick(cfg: Settings, w: World, id: EnvId, s: Sys, b: Book, h: Hid, o: Outcome)
    requires Startable(cfg, 8, w, id) && Safe(cfg, w, id, s, b) && h in s.handlers && Allowed(8, id, s, Act(h, o), b)
    ensures
      var r, s' := w.store[id], Advance(cfg, s, Act(h, o));
      && Outside(cfg, r, w.ledger, s'.world.ledger) && s'.world.issued == w.issued
      && Grows(cfg, r, w.ledger, s.world.ledger, s'.world.ledger)
      && h in s'.handlers && Forwards(cfg, r, w.ledger, s'.world.ledger, s'.handlers[h])
      && id in s'.world.store && Backed(cfg, r, w.ledger, s', s'.world.store[id])
  {
    hide Follows, Outside, FileDone, PolicyDone, DryRecord, Perform, Program, ConfigForwards, IdentityForwards,
      EnvFileOf, DryProgram;
    var r, l0, handler := w.store[id], w.ledger, s.handlers[h];
    var s' := Advance(cfg, s, Act(h, o));
    assert Forwards(cfg, r, l0, s.world.ledger, handler);
    EnvIdOf(cfg, w, id, s, b, h);
    StoreChangesByPut(cfg, s, Act(h, o));
    HasLasts(cfg, s, Act(h, o));
    if Stores(s, Act(h, o)) { PutBacked(cfg, w, id, s, b, h, o); }
    if handler.stage.Loading? {
      if o.Ok? { LoadForwards(cfg, w, id, s, b, h); }
    } else if handler.stage.Working? && handler.stage.pc < |handler.stage.prog| {
      WorkTick(cfg, r, l0, s, h, o);
    } else if handler.stage.Working? {
      HealthProbed(cfg, r);
    }
  }

  lemma EnvIdOf(cfg: Settings, w: World, id: EnvId, s: Sys, b: Book, h: Hid)
    requires Startable(cfg, 8, w, id) && Safe(cfg, w, id, s, b) && h in s.handlers
    ensures h.envId == id && id in s.world.store
  {
    hide DryRecord, Fits, MaySend, RecordOk, Outside, Forwards, Backed;
    assert HandlerOk(cfg, 8, id, s, b, h);
  }

  lemma HealthProbed(cfg: Settings, r: Record)
    ensures DryProgram(cfg, Health, Forward, r) == [Check, Probe]
  {
  }

  lemma WorkTick(cfg: Settings, r: Record, l0: Ledger, s: Sys, h: Hid, o: Outcome)
    requires h in s.handlers && s.handlers[h].stage.Working? && s.handlers[h].stage.pc < |s.handlers[h].stage.prog|
    requires Outside(cfg, r, l0, s.world.ledger) && Forwards(cfg, r, l0, s.world.ledger, s.handlers[h])
    requires Same(l0, s.world.ledger, EnvFileKey(cfg, r.id)) || Has(s, Config)
    requires Same(l0, s.world.ledger, PolicyKeyOf(r.id)) || Has(s, Identity)
    ensures
      var s' := Advance(cfg, s, Act(h, o));
      && Outside(cfg, r, l0, s'.world.ledger) && s'.world.issued == s.world.issued
      && Grows(cfg, r, l0, s.world.ledger, s'.world.ledger)
      && h in s'.handlers && Forwards(cfg, r, l0, s'.world.ledger, s'.handlers[h])
      && (Same(l0, s'.world.ledger, EnvFileKey(cfg, r.id)) || Has(s', Config))
      && (Same(l0, s'.world.ledger, PolicyKeyOf(r.id)) || Has(s', Identity))
  {
    hide Outside, FileDone, PolicyDone, Perform, Program, ConfigForwards, IdentityForwards, EnvFileOf, DryProgram;
    var handler := s.handlers[h];
    ActionOnward(cfg, r, l0, s.world, handler.step, handler.stage.local, handler.stage.prog, handler.stage.pc, o);
    HasLasts(cfg, s, Act(h, o));
    var s' := Advance(cfg, s, Act(h, o));
    if handler.step == Config { assert s'.handlers[h].step == Config; }
    if handler.step == Identity { assert s'.handlers[h].step == Identity; }
  }

  lemma ElseSafe(cfg: Settings, w: World, id: EnvId, s: Sys, b: Book, ev: Event)
    requires Startable(cfg, 8, w, id) && Safe(cfg, w, id, s, b) && Allowed(8, id, s, ev, b)
             && (ev.Act? ==> ev.h !in s.handlers)
    ensures Safe(cfg, w, id, Advance(cfg, s, ev), Noted(8, id, s, ev, b))
  {
    hide Follows, Outside, FileDone, PolicyDone, DryRecord, Has, MaySend, ConfigForwards, IdentityForwards;
    ElseFollows(cfg, 8, w, id, s, b, ev);
    HasLasts(cfg, s, ev);
    if ev.Arrive? { PositionIsPlace(8, ev.step, ev.dir); PlannedForward(8, ev.step, ev.dir, s); }
  }

  lemma PlannedForward(k: nat, step: Step, dir: Direction, s: Sys)
    ensures k == 8 && MaySend(k, s, Position(k, step, dir)) ==> dir == Forward
  {
    hide AckedAt;
  }

  lemma {:induction false} RunSafe(cfg: Settings, w: World, id: EnvId, s: Sys, evs: seq<Event>, b: Book)
    requires Startable(cfg, 8, w, id) && Safe(cfg, w, id, s, b) && Conducted(cfg, 8, id, s, evs, b)
    ensures Safe(cfg, w, id, Run(cfg, s, evs), Balance(cfg, 8, id, s, evs, b))
    decreases |evs|
  {
    if evs == [] {
    } else {
      hide Startable, Safe, Allowed, Advance, Noted;
      var ev := evs[0];
      if ev.Act? && ev.h in s.handlers {
        ActSafe(cfg, w, id, s, b, ev.h, ev.o);
      } else {
        ElseSafe(cfg, w, id, s, b, ev);
      }
      RunSafe(cfg, w, id, Advance(cfg, s, ev), evs[1..], Noted(8, id, s, ev, b));
    }
  }

  lemma StartSafe(cfg: Settings, w: World, id: EnvId)
    requires Startable(cfg, 8, w, id)
    ensures Safe(cfg, w, id, Sys(w, map[]), Opened(w, id))
  {
    hide Follows, DryRecord, FileDone, PolicyDone;
    StartFollows(cfg, 8, w, id);
  }

  // ----- the crash-free run -----

  /** One undisturbed delivery per step. */
  function CrashFree(cfg: Settings, w: World, id: EnvId, script: seq<Outcome>, j: nat): World
    requires j <= |STEPS|
  {
    if j == 0 then w else Serve(cfg, CrashFree(cfg, w, id, script, j - 1), id, STEPS[j - 1], Forward, script).0
  }

  /** The ledger after j steps. */
  function LedgerAt(cfg: Settings, r: Record, l0: Ledger, j: nat): Ledger {
    var l := if j >= 5 && cfg.connected && !Marked(Identity, r) then l0[PolicyKeyOf(r.id) := PolicyOf(cfg, r.id)]
             else l0;
    if j >= 6 && !Marked(Config, r) then l[EnvFileKey(cfg, r.id) := FileItem(EnvFileOf(cfg, Rendered(cfg, r)))] else l
  }

  /** Nothing in the way of the first j steps. */
  predicate Passable(cfg: Settings, r: Record, l0: Ledger, j: nat) {
    && (j >= 5 && cfg.connected && !Marked(Identity, r) ==> PolicyKeyOf(r.id) !in l0)
    && (j >= 7 ==> !r.failAtHealth)
  }

  /** The world after j steps. */
  function WorldAt(cfg: Settings, w: World, id: EnvId, j: nat): World
    requires j <= |STEPS| && id in w.store
  {
    w.(store := w.store[id := AllWith(cfg, j, w.store[id])], ledger := LedgerAt(cfg, w.store[id], w.ledger, j))
  }

  lemma {:induction false} CrashFreeIs(cfg: Settings, w: World, id: EnvId, script: seq<Outcome>, j: nat)
    requires j <= |STEPS| && DryRow(cfg, w, id) && Calm(script) && Passable(cfg, w.store[id], w.ledger, j)
    ensures CrashFree(cfg, w, id, script, j) == WorldAt(cfg, w, id, j)
    ensures j > 0 ==> Serve(cfg, CrashFree(cfg, w, id, script, j - 1), id, STEPS[j - 1], Forward, script).1 == Acked
  {
    if j == 0 {
      assert w.store == w.store[id := w.store[id]];
    } else {
      hide DryRecord, Calm, Serve, GoalWorld, WorldAt, Passable, Unblocked;
      PassableBefore(cfg, w.store[id], w.ledger, j, j - 1);
      CrashFreeIs(cfg, w, id, script, j - 1);
      StepPassable(cfg, w, id, j);
      CalmDelivery(cfg, WorldAt(cfg, w, id, j - 1), id, STEPS[j - 1], Forward, script);
      StepWorld(cfg, w, id, j);
    }
  }

  lemma StepPassable(cfg: Settings, w: World, id: EnvId, j: nat)
    requires 0 < j <= |STEPS| && DryRow(cfg, w, id) && Passable(cfg, w.store[id], w.ledger, j)
    ensures DryRow(cfg, WorldAt(cfg, w, id, j - 1), id)
            && Unblocked(cfg, WorldAt(cfg, w, id, j - 1), id, STEPS[j - 1], Forward)
  {
    hide With, DryRecord, EnvPath, PolicyName, EnvFileOf, PolicyOf;
    AllWithKeeps(cfg, j - 1, w.store[id]);
    if j == 5 { AllWithMarks(cfg, 4, w.store[id], Identity); }
  }

  lemma StepWorld(cfg: Settings, w: World, id: EnvId, j: nat)
    requires 0 < j <= |STEPS| && DryRow(cfg, w, id)
    ensures id in WorldAt(cfg, w, id, j - 1).store
            && GoalWorld(cfg, WorldAt(cfg, w, id, j - 1), id, STEPS[j - 1], Forward) == WorldAt(cfg, w, id, j)
  {
    hide With, DryRecord, LedgerAt, GoalLedger, AllWith;
    AllWithStep(cfg, j, w.store[id]);
    StepLedger(cfg, w.store[id], w.ledger, j);
  }

  lemma StepLedger(cfg: Settings, r: Record, l0: Ledger, j: nat)
    requires 0 < j <= |STEPS| && DryRecord(cfg, r)
    ensures GoalLedger(cfg, STEPS[j - 1], Forward, AllWith(cfg, j - 1, r), LedgerAt(cfg, r, l0, j - 1))
         == LedgerAt(cfg, r, l0, j)
  {
    hide With, DryRecord, EnvPath, PolicyName, EnvFileOf, PolicyOf, Marked;
    var q, step := AllWith(cfg, j - 1, r), STEPS[j - 1];
    AllWithKeeps(cfg, j - 1, r);
    OwnGroupCanonical(cfg, step, q);
    GoalFacts(cfg, step, Forward, q);
    if step == Identity || step == Config {
      AllWithMarks(cfg, j - 1, r, step);
      StepAppearsOnce(j - 1, j - 1);
    }
  }

  lemma OwnGroupCanonical(cfg: Settings, step: Step, r: Record)
    requires DryRecord(cfg, r)
    ensures GroupCanonical(cfg, step, r)
  {
  }

  // ----- the theorem -----

  /** Crash recovery: a run that gets the first j steps acknowledged, and has sent nothing further, whatever was
      repeated, overlapped, came late, was lost or cut short on the way, has led to exactly the world that one
      undisturbed delivery per step leads to; and those deliveries would all have been acknowledged. */
  lemma RecoversToCrashFree(cfg: Settings, w: World, id: EnvId, evs: seq<Event>, j: nat, script: seq<Outcome>)
    requires DryRow(cfg, w, id) && Driven(cfg, 8, w, id, evs) && 0 < j <= |STEPS| && Calm(script)
    requires
      var s := Run(cfg, Sys(w, map[]), evs);
      AckedAt(8, s, j - 1) && forall h :: h in s.handlers ==> Index(s.handlers[h].step) < j
    ensures Run(cfg, Sys(w, map[]), evs).world == CrashFree(cfg, w, id, script, j)
    ensures forall i | 0 <= i < j ::
              Serve(cfg, CrashFree(cfg, w, id, script, i), id, STEPS[i], Forward, script).1 == Acked
  {
    hide DryRecord, Conducted, Run, Balance, Safe, CrashFree, Serve, AckedAt, AllWith, LedgerAt, Passable;
    var r := w.store[id];
    var s, b := Run(cfg, Sys(w, map[]), evs), Balance(cfg, 8, id, Sys(w, map[]), evs, Opened(w, id));
    StartSafe(cfg, w, id);
    RunSafe(cfg, w, id, Sys(w, map[]), evs, Opened(w, id));
    EndOfRun(cfg, w, id, s, b, j);
    CrashFreeIs(cfg, w, id, script, j);
    forall i | 0 <= i < j ensures Serve(cfg, CrashFree(cfg, w, id, script, i), id, STEPS[i], Forward, script).1
                               == Acked {
      PassableBefore(cfg, r, w.ledger, j, i + 1);
      CrashFreeIs(cfg, w, id, script, i + 1);
    }
  }

  lemma PassableBefore(cfg: Settings, r: Record, l0: Ledger, j: nat, i: nat)
    requires i <= j && Passable(cfg, r, l0, j)
    ensures Passable(cfg, r, l0, i)
  {
  }

  lemma EndOfRun(cfg: Settings, w: World, id: EnvId, s: Sys, b: Book, j: nat)
    requires Startable(cfg, 8, w, id) && Safe(cfg, w, id, s, b) && 0 < j <= |STEPS| && AckedAt(8, s, j - 1)
    requires forall h :: h in s.handlers ==> Index(s.handlers[h].step) < j
    ensures s.world == WorldAt(cfg, w, id, j)
    ensures Passable(cfg, w.store[id], w.ledger, j)
  {
    hide With, DryRecord, EnvPath, PolicyName, EnvFileOf, PolicyOf, Marked, AckedAt, AllWith, HandlerOk, Forwards,
      MaySend;
    var r := w.store[id];
    assert b.m <= j - 1 by { LastIsAt(cfg, w, id, s, b, j); }
    AckedMeansStored(cfg, 8, w, id, s, b, j - 1);
    AllWithStep(cfg, j, r);
    LedgerSettles(cfg, w, id, s, b, j);
    if j >= 7 { HealthWasAcked(cfg, w, id, s, b, j); }
  }

  lemma LastIsAt(cfg: Settings, w: World, id: EnvId, s: Sys, b: Book, j: nat)
    requires Startable(cfg, 8, w, id) && Safe(cfg, w, id, s, b) && 0 < j <= |STEPS|
    requires forall h :: h in s.handlers ==> Index(s.handlers[h].step) < j
    ensures b.m <= j - 1
  {
    hide DryRecord, RecordOk, HandlerOk, Outside, Forwards, Backed;
    if b.m > 0 {
      var h: Hid :| h in s.handlers && Pos(8, s.handlers[h]) == b.m;
    }
  }

  lemma LedgerSettles(cfg: Settings, w: World, id: EnvId, s: Sys, b: Book, j: nat)
    requires Startable(cfg, 8, w, id) && Safe(cfg, w, id, s, b) && 0 < j <= |STEPS|
    requires id in s.world.store && s.world.store[id] == AllWith(cfg, j, w.store[id])
    requires forall h :: h in s.handlers ==> Index(s.handlers[h].step) < j
    ensures s.world.ledger == LedgerAt(cfg, w.store[id], w.ledger, j)
    ensures j >= 5 && cfg.connected && !Marked(Identity, w.store[id]) ==> PolicyKeyOf(w.store[id].id) !in w.ledger
  {
    hide With, DryRecord, EnvPath, PolicyName, EnvFileOf, PolicyOf, Marked, AllWith, Follows, Forwards, Rendered;
    var r, l0, l := w.store[id], w.ledger, s.world.ledger;
    AllWithMarks(cfg, j, r, Config);
    AllWithMarks(cfg, j, r, Identity);
    ConfigAndIdentity(j);
    if j < 6 { assert !Has(s, Config); }
    if j < 5 { assert !Has(s, Identity); }
    forall k ensures Same(LedgerAt(cfg, r, l0, j), l, k) {
      assert k != EnvFileKey(cfg, r.id) && k != PolicyKeyOf(r.id) ==> Same(l0, l, k);
    }
    assert forall k :: Same(LedgerAt(cfg, r, l0, j), l, k) ==> (k in LedgerAt(cfg, r, l0, j) <==> k in l);
    assert LedgerAt(cfg, r, l0, j) == l by { SameEverywhere(LedgerAt(cfg, r, l0, j), l); }
  }

  lemma SameEverywhere(l: Ledger, l': Ledger)
    requires forall k :: Same(l, l', k)
    ensures l == l'
  {
    forall k ensures k in l <==> k in l' { assert Same(l, l', k); }
    forall k | k in l ensures l[k] == l'[k] { assert Same(l, l', k); }
  }

  lemma ConfigAndIdentity(j: nat)
    requires j <= 8
    ensures Config in STEPS[..j] <==> j >= 6
    ensures Identity in STEPS[..j] <==> j >= 5
  {
    assert STEPS[4] == Identity && STEPS[5] == Config;
    if j >= 6 { assert STEPS[..j][5] == Config; }
    if j >= 5 { assert STEPS[..j][4] == Identity; }
  }

  lemma HealthWasAcked(cfg: Settings, w: World, id: EnvId, s: Sys, b: Book, j: nat)
    requires Startable(cfg, 8, w, id) && Safe(cfg, w, id, s, b) && 7 <= j <= 8 && AckedAt(8, s, j - 1)
    ensures !w.store[id].failAtHealth
  {
    hide DryRecord, RecordOk, Outside, Backed, Fits, ConfigForwards, IdentityForwards, DryProgram;
    var h: Hid :| h in s.handlers && Pos(8, s.handlers[h]) == j - 1 && s.handlers[h].stage == Replied(Acked);
    assert HandlerOk(cfg, 8, id, s, b, h);
    if j == 8 {
      var g: Hid :| g in s.handlers && Pos(8, s.handlers[g]) == 6 && s.handlers[g].stage == Replied(Acked);
      SixIsHealth(s.handlers[g]);
      assert Forwards(cfg, w.store[id], w.ledger, s.world.ledger, s.handlers[g]);
    } else {
      SixIsHealth(s.handlers[h]);
      assert Forwards(cfg, w.store[id], w.ledger, s.world.ledger, s.handlers[h]);
    }
  }

  lemma SixIsHealth(handler: Handler)
    ensures Pos(8, handler) == 6 ==> handler.step == Health
  {
  }
}
