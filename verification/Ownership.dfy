/** In either mode a step writes only its own group of fields. */
module Ownership {
  import opened Records
  import opened Ledgers
  import opened Handlers
  import opened Sessions
  import opened DryRun

  // ----- a step writes only its own group -----

  /** The step whose programs an action can occur in. */
  predicate Belongs(step: Step, a: Action) {
    match a
    case Check | Fill | Wipe | Put | Refuse | Probe => true
    case CreateVpc | EnableDns | WaitVpc | CreatePublicSubnet | CreatePrivateSubnet | CreateGroup | AuthorizeIngress =>
      step == Vpc
    case DeleteGroup | DeletePublicSubnet | DeletePrivateSubnet | DeleteVpc => step == Vpc
    case NameDb | CreateDb | WaitDbAvailable | DescribeDb | DeleteDb | WaitDbDeleted => step == Rds
    case RunInstance | WaitRunning | DescribeInstance | Terminate | WaitTerminated => step == Ec2
    case CreateBucket | EnableVersioning | PutPlaceholder | PurgeVersions | DeleteBucket => step == S3
    case CreatePolicy | VerifyPolicy | ReloadPolicies | NameEntries | DeletePolicy => step == Identity
    case UploadConfig | WriteEnvFile | DeleteConfig | RemoveEnvFile => step == Config
  }

  lemma ProgramBelongs(cfg: Settings, step: Step, dir: Direction, r: Record)
    ensures forall a | a in Program(cfg, step, dir, r) :: Belongs(step, a)
  {
    hide ForwardProgram, CompensateProgram, Belongs;
    ForwardBelongs(cfg, step, r);
    CompensateBelongs(cfg, step, r);
  }

  lemma ForwardBelongs(cfg: Settings, step: Step, r: Record)
    ensures forall a | a in ForwardProgram(cfg, step, r) :: Belongs(step, a)
  {
  }

  lemma CompensateBelongs(cfg: Settings, step: Step, r: Record)
    ensures forall a | a in CompensateProgram(cfg, step, r) :: Belongs(step, a)
  {
  }

  lemma AttemptOwnGroup(cfg: Settings, step: Step, a: Action, w: World, r: Record, o: Outcome)
    requires Belongs(step, a) && !Inner(a)
    ensures
      var v := Attempt(cfg, a, w, r, o);
      v.Go? ==> AgreeOutside(step, r, v.local) && v.local.id == r.id
  {
    hide Intent, Legal, Apply, Updated, Belongs;
    if !o.Fail? && !o.Partial? {
      UpdatedBlank(cfg, step, a, r, w.ledger, o.value);
    }
  }

  /** What an action assigns belongs to its step's group. */
  lemma UpdatedBlank(cfg: Settings, step: Step, a: Action, r: Record, l: Ledger, value: string)
    requires Belongs(step, a) && !Inner(a)
    ensures AgreeOutside(step, r, Updated(cfg, a, r, l, value)) && Updated(cfg, a, r, l, value).id == r.id
  {
    hide DbName, BucketName, PolicyName, EnvPath, AppSpiffeId, DbProxySpiffeId, Short;
    if Updated(cfg, a, r, l, value) != r { StepOf(step, a); }
  }

  lemma StepOf(step: Step, a: Action)
    requires Belongs(step, a) && !Inner(a)
    ensures step !in {Health, Registry}
  {
  }

  lemma FillOwnGroup(cfg: Settings, step: Step, r: Record)
    ensures AgreeOutside(step, r, With(cfg, step, r)) && AgreeOutside(step, r, Without(step, r))
    ensures With(cfg, step, r).id == r.id && Without(step, r).id == r.id
  {
  }

  lemma PerformOwnGroup(cfg: Settings, step: Step, a: Action, w: World, r: Record, o: Outcome)
    requires Belongs(step, a)
    ensures
      var v := Perform(cfg, step, a, w, r, o);
      && (v.Go? ==> AgreeOutside(step, r, v.local) && v.local.id == r.id)
      && (step in {Health, Registry} ==> v.world.ledger == w.ledger)
  {
    hide Perform, Attempt, Blank;
    if Inner(a) {
      InnerOwnGroup(cfg, step, a, w, r, o);
    } else {
      StepOf(step, a);
      if a == NameEntries { NamesOwnGroup(cfg, w, r); }
      AttemptOwnGroup(cfg, step, a, w, r, o);
      OuterLocal(cfg, step, a, w, r, o);
    }
  }

  lemma InnerOwnGroup(cfg: Settings, step: Step, a: Action, w: World, r: Record, o: Outcome)
    requires Inner(a)
    ensures
      var v := Perform(cfg, step, a, w, r, o);
      && (v.Go? ==> AgreeOutside(step, r, v.local) && v.local.id == r.id)
      && v.world.ledger == w.ledger
  {
    hide With, Without, Blank, AlreadyDone, AsksCloud;
    FillOwnGroup(cfg, step, r);
  }

  lemma OuterLocal(cfg: Settings, step: Step, a: Action, w: World, r: Record, o: Outcome)
    requires !Inner(a)
    ensures
      var v := Perform(cfg, step, a, w, r, o);
      v.Go? ==>
        || v.local == r
        || (a == NameEntries && v.local == Updated(cfg, a, r, w.ledger, ""))
        || (Attempt(cfg, a, w, r, o).Go? && v.local == Attempt(cfg, a, w, r, o).local)
  {
    hide Attempt, Skips, PurgeSome, Apply, Updated;
  }

  lemma NamesOwnGroup(cfg: Settings, w: World, r: Record)
    ensures AgreeOutside(Identity, r, Updated(cfg, NameEntries, r, w.ledger, ""))
            && Updated(cfg, NameEntries, r, w.ledger, "").id == r.id
  {
  }

  /** The state of a phase of one step, seen from the world w0 it started in. */
  ghost predicate Contained(cfg: Settings, w0: World, id: EnvId, step: Step, dir: Direction, s: Sys)
    requires id in w0.store
  {
    && id in s.world.store && s.world.store[id].id == id
    && s.world.store == w0.store[id := s.world.store[id]]
    && AgreeOutside(step, w0.store[id], s.world.store[id])
    && (step in {Health, Registry} ==> s.world.ledger == w0.ledger)
    && forall h :: h in s.handlers ==>
                     && h.envId == id && s.handlers[h].step == step && s.handlers[h].dir == dir
                     && (s.handlers[h].stage.Working? ==> WorkContained(w0.store[id], step, s.handlers[h].stage))
  }

  predicate WorkContained(r: Record, step: Step, stage: Stage)
    requires stage.Working?
  {
    && AgreeOutside(step, r, stage.local) && stage.local.id == r.id
    && forall a | a in stage.prog :: Belongs(step, a)
  }

  lemma ContainedTick(cfg: Settings, w0: World, id: EnvId, step: Step, dir: Direction, s: Sys, h: Hid, o: Outcome)
    requires id in w0.store && w0.store[id].id == id && Contained(cfg, w0, id, step, dir, s) && h in s.handlers
    ensures Contained(cfg, w0, id, step, dir, Advance(cfg, s, Act(h, o)))
  {
    hide Perform, Program, Blank;
    var stage := s.handlers[h].stage;
    if stage.Loading? {
      ProgramBelongs(cfg, step, dir, s.world.store[id]);
    } else if stage.Working? && stage.pc < |stage.prog| {
      PerformOwnGroup(cfg, step, stage.prog[stage.pc], s.world, stage.local, o);
      PerformStores(cfg, step, stage.prog[stage.pc], s.world, stage.local, o);
    }
  }

  lemma ContainedElse(cfg: Settings, w0: World, id: EnvId, step: Step, dir: Direction, s: Sys, ev: Event)
    requires id in w0.store && Contained(cfg, w0, id, step, dir, s)
    requires ev.Act? ==> ev.h !in s.handlers
    requires ev.Arrive? ==> ev.h.envId == id && ev.step == step && ev.dir == dir
    ensures Contained(cfg, w0, id, step, dir, Advance(cfg, s, ev))
  {
    hide Blank, WorkContained;
  }

  lemma {:induction false} ContainedRun(cfg: Settings, w0: World, id: EnvId, step: Step, dir: Direction, s: Sys,
                                        evs: seq<Event>)
    requires id in w0.store && w0.store[id].id == id && Contained(cfg, w0, id, step, dir, s) && Only(evs, id, step, dir)
    ensures Contained(cfg, w0, id, step, dir, Run(cfg, s, evs))
    decreases |evs|
  {
    if evs == [] {
    } else {
      hide Blank, Tick, WorkContained, Contained, Advance;
      match evs[0] {
        case Arrive(h, _, _) => ContainedElse(cfg, w0, id, step, dir, s, evs[0]);
        case Act(h, o) => if h in s.handlers {
          ContainedTick(cfg, w0, id, step, dir, s, h, o);
        } else {
          ContainedElse(cfg, w0, id, step, dir, s, evs[0]);
        }
        case Crash(h) => ContainedElse(cfg, w0, id, step, dir, s, evs[0]);
      }
      ContainedRun(cfg, w0, id, step, dir, Advance(cfg, s, evs[0]), evs[1..]);
    }
  }

  /** Whatever its deliveries do, in either mode and direction, a step changes no field outside its own group
      and no other environment's record; health and registry touch nothing outside the store. */
  lemma StepWritesOnlyItsGroup(cfg: Settings, w: World, id: EnvId, step: Step, dir: Direction, evs: seq<Event>)
    requires id in w.store && w.store[id].id == id && Only(evs, id, step, dir)
    ensures
      var w' := Run(cfg, Sys(w, map[]), evs).world;
      && id in w'.store && w'.store[id].id == id && w'.store == w.store[id := w'.store[id]]
      && AgreeOutside(step, w.store[id], w'.store[id])
      && (step in {Health, Registry} ==> w'.ledger == w.ledger)
  {
    hide Blank, Run;
    assert w.store == w.store[id := w.store[id]];
    ContainedRun(cfg, w, id, step, dir, Sys(w, map[]), evs);
  }
}
