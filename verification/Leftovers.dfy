/** What a step that is given up leaves behind: nobody compensates it, so the .env file of a config step and the policy
    of an identity step stay. */
module Leftovers {
  import opened Records
  import opened Ledgers
  import opened Handlers
  import opened Sessions
  import opened Driver
  import opened Ownership

  /** Config leaves a file, identity a policy. */
  predicate Leaves(kind: Step) {
    kind == Config || kind == Identity
  }

  function Left(cfg: Settings, kind: Step, id: EnvId): Key
    requires Leaves(kind)
  {
    if kind == Config then FileKey(EnvPath(cfg, id)) else PolicyKey(PolicyName(id))
  }

  function Maker(kind: Step): Action {
    if kind == Config then WriteEnvFile else CreatePolicy
  }

  function Remover(kind: Step): Action {
    if kind == Config then RemoveEnvFile else DeletePolicy
  }

  /** This event's handler makes the file or the policy, and the request took effect. */
  predicate Makes(cfg: Settings, kind: Step, key: Key, s: Sys, ev: Event)
    requires Leaves(kind)
  {
    && ev.Act? && ev.h in s.handlers && s.handlers[ev.h].stage.Working?
    && var stage := s.handlers[ev.h].stage;
    stage.pc < |stage.prog| && stage.prog[stage.pc] == Maker(kind) && Applied(ev.o)
    && Left(cfg, kind, stage.local.id) == key
  }

  predicate Made(cfg: Settings, kind: Step, key: Key, s: Sys, evs: seq<Event>)
    requires Leaves(kind)
    decreases |evs|
  {
    evs != [] && (Makes(cfg, kind, key, s, evs[0]) || Made(cfg, kind, key, Advance(cfg, s, evs[0]), evs[1..]))
  }

  /** No handler is to remove it. */
  ghost predicate NobodyRemoves(kind: Step, s: Sys) {
    forall h :: h in s.handlers ==>
                  && (s.handlers[h].step == kind ==> s.handlers[h].dir == Forward)
                  && (s.handlers[h].stage.Working? ==> Remover(kind) !in s.handlers[h].stage.prog)
  }

  predicate OfKind(kind: Step, key: Key) {
    if kind == Config then key.FileKey? else key.PolicyKey?
  }

  /** The request is about something else. */
  predicate Elsewhere(kind: Step, op: Op) {
    match op
    case Query => true
    case Reject => true
    case _ => !OfKind(kind, op.key)
  }

  lemma VpcOps(cfg: Settings, kind: Step, a: Action, w: World, r: Record, value: string)
    requires Leaves(kind) && Belongs(Vpc, a)
    ensures Elsewhere(kind, Intent(cfg, a, r, w.ledger, value))
  {
    hide Short, Joined, Uses;
  }

  lemma MachineOps(cfg: Settings, kind: Step, a: Action, w: World, r: Record, value: string)
    requires Leaves(kind) && (Belongs(Rds, a) || Belongs(Ec2, a) || Belongs(S3, a))
    ensures Elsewhere(kind, Intent(cfg, a, r, w.ledger, value))
  {
    hide DbName, BucketName, Short, Joined, Uses, Pushed;
  }

  lemma LateOps(cfg: Settings, kind: Step, a: Action, w: World, r: Record, value: string)
    requires Leaves(kind) && (Belongs(Identity, a) || Belongs(Config, a)) && a != Maker(kind) && a != Remover(kind)
    ensures Elsewhere(kind, Intent(cfg, a, r, w.ledger, value))
  {
    hide PolicyName, EnvPath, PolicyOf, EnvFileOf, ConfigJsonOf, Short, Joined, Uses, Pushed;
  }

  lemma OtherOps(cfg: Settings, kind: Step, a: Action, w: World, r: Record, value: string)
    requires Leaves(kind) && a != Maker(kind) && a != Remover(kind)
    ensures Elsewhere(kind, Intent(cfg, a, r, w.ledger, value))
  {
    hide Intent, Elsewhere;
    if Belongs(Vpc, a) {
      VpcOps(cfg, kind, a, w, r, value);
    } else if Belongs(Rds, a) || Belongs(Ec2, a) || Belongs(S3, a) {
      MachineOps(cfg, kind, a, w, r, value);
    } else {
      LateOps(cfg, kind, a, w, r, value);
    }
  }

  lemma MakerOp(cfg: Settings, kind: Step, w: World, r: Record, value: string)
    requires Leaves(kind)
    ensures
      var op, key := Intent(cfg, Maker(kind), r, w.ledger, value), Left(cfg, kind, r.id);
      && (op.Create? || op.Overwrite?) && op.key == key && (Legal(w, op) || key in w.ledger)
  {
    hide EnvPath, PolicyName, EnvFileOf;
  }

  lemma AttemptLeaves(cfg: Settings, kind: Step, a: Action, w: World, r: Record, o: Outcome, key: Key)
    requires Leaves(kind) && OfKind(kind, key) && a != Remover(kind)
    ensures
      key in Attempt(cfg, a, w, r, o).world.ledger <==>
             key in w.ledger || (a == Maker(kind) && Applied(o) && Left(cfg, kind, r.id) == key)
  {
    hide Updated, Short, Intent, Uses, Left;
    if Applied(o) {
      if a == Maker(kind) { MakerOp(cfg, kind, w, r, o.value); } else { OtherOps(cfg, kind, a, w, r, o.value); }
    }
  }

  lemma InnerLeaves(cfg: Settings, step: Step, a: Action, w: World, r: Record, o: Outcome, key: Key)
    requires (key.FileKey? || key.PolicyKey?) && (Inner(a) || a == NameEntries || (a == PurgeVersions && o.Partial?))
    ensures key in Perform(cfg, step, a, w, r, o).world.ledger <==> key in w.ledger
  {
    hide Attempt, With, Without, AlreadyDone, AsksCloud, Updated;
  }

  lemma PerformLeaves(cfg: Settings, kind: Step, step: Step, a: Action, w: World, r: Record, o: Outcome, key: Key)
    requires Leaves(kind) && OfKind(kind, key) && a != Remover(kind)
    ensures
      key in Perform(cfg, step, a, w, r, o).world.ledger <==>
             key in w.ledger || (a == Maker(kind) && Applied(o) && Left(cfg, kind, r.id) == key)
  {
    hide Attempt, Perform, Left;
    if Inner(a) || a == NameEntries || (a == PurgeVersions && o.Partial?) {
      InnerLeaves(cfg, step, a, w, r, o, key);
    } else {
      PerformIs(cfg, step, a, w, r, o);
      AttemptLeaves(cfg, kind, a, w, r, o, key);
    }
  }

  lemma Removers(cfg: Settings, kind: Step, step: Step, dir: Direction, r: Record)
    requires Leaves(kind)
    ensures Remover(kind) in Program(cfg, step, dir, r) ==> step == kind && dir == Compensate
  {
  }

  lemma AdvanceLeaves(cfg: Settings, kind: Step, s: Sys, ev: Event, key: Key)
    requires Leaves(kind) && OfKind(kind, key) && NobodyRemoves(kind, s)
             && (ev.Arrive? && ev.step == kind ==> ev.dir == Forward)
    ensures NobodyRemoves(kind, Advance(cfg, s, ev))
    ensures key in Advance(cfg, s, ev).world.ledger <==> key in s.world.ledger || Makes(cfg, kind, key, s, ev)
  {
    hide Perform, Program, Left, OfKind;
    if ev.Act? && ev.h in s.handlers {
      var handler, stage := s.handlers[ev.h], s.handlers[ev.h].stage;
      if stage.Working? && stage.pc < |stage.prog| {
        PerformLeaves(cfg, kind, handler.step, stage.prog[stage.pc], s.world, stage.local, ev.o, key);
      } else if stage.Loading? && ev.h.envId in s.world.store {
        Removers(cfg, kind, handler.step, handler.dir, s.world.store[ev.h.envId]);
      }
    }
  }

  lemma {:induction false} RunLeaves(cfg: Settings, kind: Step, k: nat, id: EnvId, s: Sys, evs: seq<Event>, b: Book,
                                     key: Key)
    requires Leaves(kind) && OfKind(kind, key) && NobodyRemoves(kind, s) && k <= Index(kind)
             && Conducted(cfg, k, id, s, evs, b)
    ensures key in Run(cfg, s, evs).world.ledger <==> key in s.world.ledger || Made(cfg, kind, key, s, evs)
    decreases |evs|
  {
    if evs == [] {
    } else {
      hide Advance, NobodyRemoves, Makes, Noted, AckedAt, OfKind;
      AdvanceLeaves(cfg, kind, s, evs[0], key);
      RunLeaves(cfg, kind, k, id, Advance(cfg, s, evs[0]), evs[1..], Noted(k, id, s, evs[0], b), key);
    }
  }

  /** Step k is given up, and the steps before it are compensated, in either mode and on either kind of worker. If k is
      config or an earlier step there is, at every moment, a file at the environment's path if and only if there was one
      at the start or the write of some config attempt, stored or not, took effect; if k is identity or an earlier step,
      the same holds of the policy and the create of some identity attempt. */
  lemma StepGivenUpLeavesIff(cfg: Settings, kind: Step, k: nat, w: World, id: EnvId, evs: seq<Event>)
    requires Leaves(kind) && k <= Index(kind) && Driven(cfg, k, w, id, evs)
    ensures
      var key := Left(cfg, kind, id);
      key in Run(cfg, Sys(w, map[]), evs).world.ledger <==> key in w.ledger || Made(cfg, kind, key, Sys(w, map[]), evs)
  {
    RunLeaves(cfg, kind, k, id, Sys(w, map[]), evs, Opened(w, id), Left(cfg, kind, id));
  }
}
