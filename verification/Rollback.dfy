/** A dry-run that fails: step k is given up, the steps before it are compensated in reverse. Then the provisioning
    goroutine overwrites the record with its own copy, taken before the first step ran. */
module Rollback {
  import opened Records
  import opened Ledgers
  import opened Handlers
  import opened Sessions
  import opened DryRun
  import opened Groups
  import opened Driver
  import opened OrderedRuns
  import Deliveries

  /** Some Put of the step that was given up was applied, acknowledged or not. */
  predicate Landed(cfg: Settings, k: nat, s: Sys, evs: seq<Event>)
    decreases |evs|
  {
    evs != [] && ((Stores(s, evs[0]) && Pos(k, s.handlers[evs[0].h]) == k)
                  || Landed(cfg, k, Advance(cfg, s, evs[0]), evs[1..]))
  }

  lemma {:induction false} BookKnowsLanded(cfg: Settings, k: nat, id: EnvId, s: Sys, evs: seq<Event>, b: Book)
    ensures Balance(cfg, k, id, s, evs, b).landed <==> b.landed || Landed(cfg, k, s, evs)
    decreases |evs|
  {
    if evs == [] {
    } else {
      hide Advance;
      BookKnowsLanded(cfg, k, id, Advance(cfg, s, evs[0]), evs[1..], Noted(k, id, s, evs[0], b));
    }
  }

  /** The conductor is done: the compensation of the first step is acknowledged, if there was anything to compensate. */
  ghost predicate RolledBack(cfg: Settings, k: nat, w: World, id: EnvId, evs: seq<Event>) {
    Driven(cfg, k, w, id, evs) && (k == 0 || AckedAt(k, Run(cfg, Sys(w, map[]), evs), 2 * k))
  }

  /** After the rollback the record is the original one, unless an attempt of the step given up got its Put applied;
      then that step's group is still there, because only acknowledged steps are compensated. */
  lemma RollbackRestoresRecord(cfg: Settings, k: nat, w: World, id: EnvId, evs: seq<Event>)
    requires k < 8 && DryRow(cfg, w, id) && Fresh(w.store[id]) && RolledBack(cfg, k, w, id, evs)
    ensures
      var r := w.store[id];
      Run(cfg, Sys(w, map[]), evs).world.store
      == w.store[id := if Landed(cfg, k, Sys(w, map[]), evs) then With(cfg, STEPS[k], r) else r]
  {
    hide DryRecord, Run, Driven, Balance, Landed, With, Without, AckedAt;
    var r := w.store[id];
    var s := Run(cfg, Sys(w, map[]), evs);
    var b := Balance(cfg, k, id, Sys(w, map[]), evs, Opened(w, id));
    FreshRecordsNothing(r);
    hide NothingRecorded, Fresh;
    DrivenFollows(cfg, k, w, id, evs);
    BookKnowsLanded(cfg, k, id, Sys(w, map[]), evs, Opened(w, id));
    if k > 0 {
      AckedMeansStored(cfg, k, w, id, s, b, 2 * k);
      StepAppearsOnce(k, 1);
      UndoNewest(cfg, 1, r, STEPS[k], b.landed);
    }
  }

  /** The goroutine's last write (internal/apiserver/server.go:172-173): its own copy, marked failed. */
  function FailureWrite(stale: Record): Record {
    stale.(status := FAILED)
  }

  /** A write of next over current throws away something a step has recorded. */
  predicate Loses(current: Record, next: Record) {
    current.(status := "") != next.(status := "")
  }

  /** The failure write discards something exactly when a resource step was given up after its Put had been applied. */
  lemma FailureWriteLosesIff(cfg: Settings, k: nat, w: World, id: EnvId, evs: seq<Event>)
    requires k < 8 && DryRow(cfg, w, id) && Fresh(w.store[id]) && RolledBack(cfg, k, w, id, evs)
    ensures
      var s := Run(cfg, Sys(w, map[]), evs);
      id in s.world.store
      && (Loses(s.world.store[id], FailureWrite(w.store[id])) <==> Landed(cfg, k, Sys(w, map[]), evs) && k < 6)
  {
    hide RolledBack, Landed, Run, DryRecord;
    RollbackRestoresRecord(cfg, k, w, id, evs);
    FilledDiffers(cfg, STEPS[k], w.store[id]);
  }

  lemma FilledDiffers(cfg: Settings, s: Step, r: Record)
    requires Fresh(r)
    ensures With(cfg, s, r).(status := "") != r.(status := "") <==> s != Health && s != Registry
  {
    hide EnvPath, PolicyName, AppSpiffeId, DbProxySpiffeId;
    assert s != Health && s != Registry ==> Marked(s, With(cfg, s, r)) && !Marked(s, r);
  }

  // ----- the loss does happen -----

  /** The first step's only delivery has its Put applied but reported as failed. */
  function LostPut(id: EnvId): seq<Event> {
    [Arrive(Hid(id, 0), Vpc, Forward)] + Steps(Hid(id, 0), [Ok(""), Ok(""), Ok(""), Lost("")])
  }

  /** Deliveries of the first step alone are always in order. */
  lemma {:induction false} FirstStepDriven(cfg: Settings, id: EnvId, s: Sys, evs: seq<Event>, b: Book)
    requires Only(evs, id, Vpc, Forward) && b.m == 0
    requires forall h :: h in s.handlers ==> s.handlers[h].step == Vpc && s.handlers[h].dir == Forward
    ensures Conducted(cfg, 0, id, s, evs, b)
    decreases |evs|
  {
    if evs == [] {
    } else {
      hide Perform, Program;
      var s' := Advance(cfg, s, evs[0]);
      FirstStepDriven(cfg, id, s', evs[1..], Noted(0, id, s, evs[0], b));
    }
  }

  lemma FailureWriteCanLose(cfg: Settings, w: World, id: EnvId)
    requires DryRow(cfg, w, id) && Fresh(w.store[id])
    ensures
      var s := Run(cfg, Sys(w, map[]), LostPut(id));
      && RolledBack(cfg, 0, w, id, LostPut(id))
      && id in s.world.store && Loses(s.world.store[id], FailureWrite(w.store[id]))
  {
    hide DryRecord, With, Short, Landed, Run, Conducted;
    var evs := LostPut(id);
    var script := [Ok(""), Ok(""), Ok(""), Lost("")];
    Deliveries.OnlyOne(Hid(id, 0), Vpc, Forward, script);
    FirstStepDriven(cfg, id, Sys(w, map[]), evs, Opened(w, id));
    LostPutServe(cfg, w, id, script);
    ServeIsOneHandler(cfg, w, Hid(id, 0), Vpc, Forward, script);
    RollbackRestoresRecord(cfg, 0, w, id, evs);
    assert w.store[id := w.store[id]] == w.store;
    FailureWriteLosesIff(cfg, 0, w, id, evs);
  }

  lemma LostPutServe(cfg: Settings, w: World, id: EnvId, script: seq<Outcome>)
    requires DryRow(cfg, w, id) && Fresh(w.store[id]) && script == [Ok(""), Ok(""), Ok(""), Lost("")]
    ensures Serve(cfg, w, id, Vpc, Forward, script).0.store != w.store
  {
    hide Canonical;
    var r := w.store[id];
    var prog := [Check, Fill, Put];
    var r1 := With(cfg, Vpc, r);
    assert r1.vpcId != "";
    assert Serve(cfg, w, id, Vpc, Forward, script) == Carry(cfg, Vpc, w, r, prog, 0, script);
    assert Carry(cfg, Vpc, w, r, prog, 0, script) == Carry(cfg, Vpc, w, r, prog, 1, script);
    assert Carry(cfg, Vpc, w, r, prog, 1, script) == Carry(cfg, Vpc, w, r1, prog, 2, script);
    assert Carry(cfg, Vpc, w, r1, prog, 2, script).0 == w.(store := w.store[id := r1]);
  }
}
