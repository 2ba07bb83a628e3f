/** A single dry-run delivery: all or nothing, and exactly when an undisturbed one succeeds. */
module Deliveries {
  import opened Records
  import opened Ledgers
  import opened Handlers
  import opened Sessions
  import opened DryRun
  import opened Convergence
  import opened Groups
  import opened Unwind
  import opened Attempts
  import opened Retries

  /** A single delivery is a phase of its own. */
  lemma DeliveryIsAPhase(cfg: Settings, w: World, id: EnvId, step: Step, dir: Direction, script: seq<Outcome>)
    requires DryRow(cfg, w, id)
    ensures
      var (w', answer) := Serve(cfg, w, id, step, dir, script);
      && Between(w, GoalWorld(cfg, w, id, step, dir), w')
      && (answer == Acked ==> w' == GoalWorld(cfg, w, id, step, dir)
                              && (step == Health && dir == Forward ==> !w.store[id].failAtHealth))
  {
    hide DryRow, GoalWorld, Between;
    var h := Hid(id, 0);
    var evs := [Arrive(h, step, dir)] + Steps(h, script);
    OnlyOne(h, step, dir, script);
    ServeIsOneHandler(cfg, w, h, step, dir, script);
    RetriesConverge(cfg, w, id, step, dir, evs);
    if Serve(cfg, w, h.envId, step, dir, script).1 == Acked { SoloAck(cfg, w, h, step, dir, script); }
  }

  lemma OnlyOne(h: Hid, step: Step, dir: Direction, script: seq<Outcome>)
    ensures Only([Arrive(h, step, dir)] + Steps(h, script), h.envId, step, dir)
  {
    StepsArriveNothing(h, script);
  }

  lemma SoloAck(cfg: Settings, w: World, h: Hid, step: Step, dir: Direction, script: seq<Outcome>)
    requires Serve(cfg, w, h.envId, step, dir, script).1 == Acked
    ensures SomeAck(Run(cfg, Sys(w, map[]), [Arrive(h, step, dir)] + Steps(h, script)))
  {
    ServeIsOneHandler(cfg, w, h, step, dir, script);
  }

  lemma {:induction false} StepsArriveNothing(h: Hid, script: seq<Outcome>)
    ensures forall i | 0 <= i < |Steps(h, script)| :: Steps(h, script)[i].Act?
  {
    if script == [] {
    } else {
      StepsArriveNothing(h, script[1..]);
    }
  }

  /** Nothing in the way of the request: health is not told to fail, and on a connected worker svid-exchange will
      create or delete the policy. */
  ghost predicate Unblocked(cfg: Settings, w: World, id: EnvId, step: Step, dir: Direction)
    requires id in w.store
  {
    var r := w.store[id];
    && (step == Health && dir == Forward ==> !r.failAtHealth)
    && (Remote(cfg, step) ==>
          if dir == Forward then r.svidExchangePolicyName != "" || PolicyKeyOf(id) !in w.ledger
          else r.svidExchangePolicyName == "" || Legal(w, Remove(PolicyKey(r.svidExchangePolicyName))))
  }

  /** Without faults a dry-run delivery is acknowledged, and its goal reached, if and only if nothing is in its way. */
  lemma CalmDelivery(cfg: Settings, w: World, id: EnvId, step: Step, dir: Direction, script: seq<Outcome>)
    requires DryRow(cfg, w, id) && Calm(script)
    ensures Serve(cfg, w, id, step, dir, script).1 == Acked <==> Unblocked(cfg, w, id, step, dir)
    ensures Unblocked(cfg, w, id, step, dir) ==>
              Serve(cfg, w, id, step, dir, script).0 == GoalWorld(cfg, w, id, step, dir)
  {
    hide Serve, Canonical, GoalWorld;
    DeliveryIsAPhase(cfg, w, id, step, dir, script);
    if !Remote(cfg, step) {
      CalmLocal(cfg, w, id, step, dir, script);
    } else if dir == Forward {
      CalmIdentityForward(cfg, w, id, script);
    } else {
      CalmIdentityBack(cfg, w, id, script);
    }
  }

  lemma CalmLocal(cfg: Settings, w: World, id: EnvId, step: Step, dir: Direction, script: seq<Outcome>)
    requires id in w.store && w.store[id].dryRun && Calm(script) && !Remote(cfg, step)
    ensures Serve(cfg, w, id, step, dir, script).1 == Acked <==>
            (step == Health && dir == Forward ==> !w.store[id].failAtHealth)
  {
    hide Carry, Perform, Program;
    var r := w.store[id];
    var prog := DryProgram(cfg, step, dir, r);
    DryProgramIs(cfg, step, dir, r);
    assert Serve(cfg, w, id, step, dir, script) == Carry(cfg, step, w, r, prog, 0, script);
    if prog == [] {
      CalmEnd(cfg, step, w, r, prog, script);
    } else if prog[0] == Check {
      CarryIs(cfg, step, w, r, prog, 0, script);
      CheckIs(cfg, step, w, r, script[1]);
      if !Marked(step, r) {
        CalmRest(cfg, step, w, r, prog, 1, script);
        assert step == Health ==> prog[1] == Probe;
      }
    } else {
      CalmRest(cfg, step, w, r, prog, 0, script);
    }
  }

  predicate LocalAction(a: Action) {
    match a
    case Fill | Wipe | Put | Probe | WriteEnvFile | RemoveEnvFile => true
    case _ => false
  }

  lemma LocalGoes(cfg: Settings, step: Step, a: Action, w: World, r: Record, o: Outcome)
    requires LocalAction(a) && r.dryRun && o.Ok?
    ensures
      var v := Perform(cfg, step, a, w, r, o);
      if a == Probe && r.failAtHealth then v == Stop(w, Refused)
      else v.Go? && v.local.dryRun && v.local.failAtHealth == r.failAtHealth
  {
    hide EnvPath, PolicyName, EnvFileOf, AppSpiffeId, DbProxySpiffeId;
  }

  lemma {:induction false} CalmRest(cfg: Settings, step: Step, w: World, r: Record, prog: seq<Action>, pc: nat,
                                    script: seq<Outcome>)
    requires pc <= |prog| <= 9 && Calm(script) && r.dryRun && forall i | pc <= i < |prog| :: LocalAction(prog[i])
    ensures Carry(cfg, step, w, r, prog, pc, script).1 == Acked <==>
            !r.failAtHealth || forall i | pc <= i < |prog| :: prog[i] != Probe
    decreases |prog| - pc
  {
    hide Perform, LocalAction;
    if pc < |prog| {
      LocalGoes(cfg, step, prog[pc], w, r, script[pc + 1]);
      var v := Perform(cfg, step, prog[pc], w, r, script[pc + 1]);
      if v.Go? { CalmRest(cfg, step, v.world, v.local, prog, pc + 1, script); }
    }
  }

  lemma CalmIdentityForward(cfg: Settings, w: World, id: EnvId, script: seq<Outcome>)
    requires id in w.store && w.store[id].id == id && w.store[id].dryRun && Calm(script) && cfg.connected
    ensures
      Serve(cfg, w, id, Identity, Forward, script).1 == Acked
      <==> w.store[id].svidExchangePolicyName != "" || PolicyKeyOf(id) !in w.ledger
  {
    hide Serve, PolicyName;
    if w.store[id].svidExchangePolicyName != "" {
      MarkedSkips(cfg, w, id, Identity, script);
    } else if PolicyKeyOf(id) !in w.ledger {
      CalmIdentity(cfg, w, id, script);
    } else {
      IdentityRetryRefused(cfg, w, id, script);
    }
  }

  lemma CalmIdentityBack(cfg: Settings, w: World, id: EnvId, script: seq<Outcome>)
    requires id in w.store && w.store[id].id == id && Calm(script) && cfg.connected
    ensures
      Serve(cfg, w, id, Identity, Compensate, script).1 == Acked
      <==> w.store[id].svidExchangePolicyName == "" || Legal(w, Remove(PolicyKey(w.store[id].svidExchangePolicyName)))
  {
    hide Carry, Perform, Without;
    var r := w.store[id];
    var k := PolicyKey(r.svidExchangePolicyName);
    if r.svidExchangePolicyName == "" {
      WithoutKeepsId(Identity, r);
      WipeAndPut(cfg, Identity, w, r, [Wipe, Put], 0, script);
    } else {
      NothingUsesBuckets(w.ledger, k);
      assert Serve(cfg, w, id, Identity, Compensate, script) == Carry(cfg, Identity, w, r, IDENTITY_UNDO, 0, script);
      if Legal(w, Remove(k)) {
        IdentityUndo(cfg, w, id, script);
      } else {
        CarryIs(cfg, Identity, w, r, IDENTITY_UNDO, 0, script);
        IllegalDelete(cfg, w, r, script[1]);
      }
    }
  }

  lemma IllegalDelete(cfg: Settings, w: World, r: Record, o: Outcome)
    requires !Legal(w, Remove(PolicyKey(r.svidExchangePolicyName)))
    ensures Perform(cfg, Identity, DeletePolicy, w, r, o) == Stop(w, Refused)
  {
    hide With, Without, Legal;
    assert Intent(cfg, DeletePolicy, r, w.ledger, if Applied(o) then o.value else "")
        == Remove(PolicyKey(r.svidExchangePolicyName));
  }

  lemma GoalRow(cfg: Settings, w: World, id: EnvId, step: Step, dir: Direction)
    requires DryRow(cfg, w, id)
    ensures DryRow(cfg, GoalWorld(cfg, w, id, step, dir), id)
  {
    hide DryRecord, Goal, GoalLedger;
    CanonicalGoal(cfg, step, dir, w.store[id]);
  }
}
