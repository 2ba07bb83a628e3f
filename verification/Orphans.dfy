/** A real environment that fails: rds or ec2 is given up after any number of attempts, the vpc step cannot be
    compensated while an instance lives in it, and the provisioning goroutine overwrites the record with its own early
    copy. */
module Orphans {
  import opened Records
  import opened Ledgers
  import opened Handlers
  import opened Cascade
  import opened Attempts
  import Retries
  import Rollback

  /** Attempts of one step, one after the other; between them resources among the given ones may mature by
      themselves. */
  ghost predicate Tried(cfg: Settings, id: EnvId, step: Step, ws: seq<World>, scripts: seq<seq<Outcome>>,
                        keys: set<Key>) {
    && |ws| == |scripts| + 1
    && forall i | 0 <= i < |scripts| :: Matures(Serve(cfg, ws[i], id, step, Forward, scripts[i]).0, ws[i + 1], keys)
  }

  /** The goroutine's last write. */
  function Overwritten(x: World, id: EnvId, stale: Record): World {
    x.(store := x.store[id := Rollback.FailureWrite(stale)])
  }

  // ----- the network is held -----

  ghost predicate Held(w: World, group: string) {
    exists k :: k in w.ledger && GroupKey(group) in Uses(w.ledger[k])
  }

  lemma HeldGroupStays(cfg: Settings, w: World, r: Record, o: Outcome)
    requires r.securityGroupId != "" && Held(w, r.securityGroupId)
    ensures Perform(cfg, Vpc, DeleteGroup, w, r, o) == Stop(w, Refused)
  {
    hide With, Without, Uses;
  }

  /** While something in the cloud uses the recorded security group, every vpc compensation is refused and changes
      nothing. */
  lemma VpcIsHeld(cfg: Settings, w: World, id: EnvId, script: seq<Outcome>)
    requires Real(w, id) && w.store[id].securityGroupId != "" && Held(w, w.store[id].securityGroupId)
    ensures var (w', answer) := Serve(cfg, w, id, Vpc, Compensate, script); w' == w && answer != Acked
  {
    hide Carry, Perform, Held;
    var r := w.store[id];
    if |script| > 0 && script[0].Ok? {
      assert CompensateProgram(cfg, Vpc, r) == VPC_UNDO;
      if |script| == 1 {
        Retries.CarryStops(cfg, Vpc, w, r, VPC_UNDO, 0, script);
      } else {
        CarryIs(cfg, Vpc, w, r, VPC_UNDO, 0, script);
        HeldGroupStays(cfg, w, r, script[1]);
      }
    }
  }

  // ----- rds -----

  function Db(id: EnvId): Key {
    DbKey(DbName(id))
  }

  /** After some attempts, seen from the world before them: whether they made the instance, and got it recorded. */
  ghost predicate RdsState(w: World, x: World, id: EnvId, made: bool, saved: bool) {
    && Real(w, id) && Real(x, id) && x.store == w.store[id := x.store[id]]
    && AgreeOutside(Rds, w.store[id], x.store[id])
    && Db(id) !in w.ledger && x.ledger.Keys == w.ledger.Keys + (if made then {Db(id)} else {})
    && (made ==> x.ledger[Db(id)].DbItem? && x.ledger[Db(id)].group == w.store[id].securityGroupId)
    && if saved then made && DbRecorded(x, id) else x.store[id].rdsInstanceId == ""
  }

  lemma RdsMatures(w: World, x: World, y: World, id: EnvId, made: bool, saved: bool, keys: set<Key>)
    requires RdsState(w, x, id, made, saved) && Matures(x, y, keys)
    ensures RdsState(w, y, id, made, saved)
  {
    hide DbName, Blank;
  }

  /** A recorded instance that is available is left alone, answered or not. */
  lemma AvailableStays(cfg: Settings, w: World, id: EnvId, script: seq<Outcome>)
    requires Real(w, id) && DbRecorded(w, id) && w.ledger[Db(id)].dbState == Available
    ensures Serve(cfg, w, id, Rds, Forward, script).0 == w
  {
    hide Carry, Perform, DbName;
    var r := w.store[id];
    if |script| > 0 && script[0].Ok? {
      assert ForwardProgram(cfg, Rds, r) == RDS_PROGRAM;
      if |script| == 1 {
        CarryOver(cfg, Rds, w, r, RDS_PROGRAM, 0, script);
      } else {
        CarryIs(cfg, Rds, w, r, RDS_PROGRAM, 0, script);
        AvailableIsDone(cfg, w, r, script[1]);
      }
    }
  }

  lemma AvailableIsDone(cfg: Settings, w: World, r: Record, o: Outcome)
    requires !r.dryRun && r.rdsInstanceId != ""
    requires var k := DbKey(r.rdsInstanceId); k in w.ledger && w.ledger[k].DbItem? && w.ledger[k].dbState == Available
    ensures Perform(cfg, Rds, Check, w, r, o) == Stop(w, if o.Ok? then Acked else Refused)
  {
  }

  lemma RdsTry(cfg: Settings, w: World, x: World, id: EnvId, made: bool, saved: bool, script: seq<Outcome>)
    requires RdsState(w, x, id, made, saved)
    ensures
      var now := DbCreatedBy(x, id, script);
      RdsState(w, Serve(cfg, x, id, Rds, Forward, script).0, id, made || now, saved || (now && DbSaved(script)))
  {
    hide Serve, DbName, DbSaved, Blank;
    if !made {
      hide DbCreatedBy;
      RdsSavedBeforePolling(cfg, x, id, script);
      var y := Serve(cfg, x, id, Rds, Forward, script).0;
      if DbCreatedBy(x, id, script) {
        SameGroup(Rds, w.store[id], x.store[id]);
        assert y.store == w.store[id := y.store[id]];
        if DbSaved(script) { StillAgrees(w.store[id], x.store[id], y.store[id]); }
      }
    } else if saved && x.ledger[Db(id)].dbState == Available {
      AvailableStays(cfg, x, id, script);
    } else {
      Retries.RdsRetryRefused(cfg, x, id, script);
    }
  }

  lemma SameGroup(step: Step, r: Record, s: Record)
    requires AgreeOutside(step, r, s) && (step == Rds || step == Ec2)
    ensures r.securityGroupId == s.securityGroupId
  {
  }

  lemma StillAgrees(r: Record, s: Record, t: Record)
    requires AgreeOutside(Rds, r, s) && AgreeOutside(Rds, s, t)
    ensures AgreeOutside(Rds, r, t) && t.dryRun == r.dryRun && t.id == r.id
  {
  }

  lemma {:induction false} RdsTries(cfg: Settings, id: EnvId, ws: seq<World>, scripts: seq<seq<Outcome>>,
                                    keys: set<Key>, n: nat)
    requires Tried(cfg, id, Rds, ws, scripts, keys) && n <= |scripts|
    requires Real(ws[0], id) && ws[0].store[id].rdsInstanceId == "" && Db(id) !in ws[0].ledger
    ensures RdsState(ws[0], ws[n], id, Makes(ws, scripts, id, n), Saves(ws, scripts, id, n))
  {
    hide Serve, DbName, DbCreatedBy, DbSaved, RdsState, Matures;
    if n == 0 {
      NothingYet(ws[0], id);
    } else {
      RdsTries(cfg, id, ws, scripts, keys, n - 1);
      var made, saved := Makes(ws, scripts, id, n - 1), Saves(ws, scripts, id, n - 1);
      assert id in ws[n - 1].store by { StateHasRow(ws[0], ws[n - 1], id, made, saved); }
      RdsTry(cfg, ws[0], ws[n - 1], id, made, saved, scripts[n - 1]);
      var now := DbCreatedBy(ws[n - 1], id, scripts[n - 1]);
      RdsMatures(ws[0], Serve(cfg, ws[n - 1], id, Rds, Forward, scripts[n - 1]).0, ws[n], id, made || now,
                 saved || (now && DbSaved(scripts[n - 1])), keys);
    }
  }

  lemma NothingYet(w: World, id: EnvId)
    requires Real(w, id) && w.store[id].rdsInstanceId == "" && Db(id) !in w.ledger
    ensures RdsState(w, w, id, false, false)
  {
    assert w.store == w.store[id := w.store[id]];
  }

  lemma StateHasRow(w: World, x: World, id: EnvId, made: bool, saved: bool)
    requires RdsState(w, x, id, made, saved)
    ensures id in x.store
  {
  }

  predicate MakesDb(w: World, id: EnvId, script: seq<Outcome>) {
    id in w.store && DbCreatedBy(w, id, script)
  }

  /** One of the first n attempts created the instance. */
  predicate Makes(ws: seq<World>, scripts: seq<seq<Outcome>>, id: EnvId, n: nat)
    requires n <= |scripts| < |ws|
  {
    exists i | 0 <= i < n :: MakesDb(ws[i], id, scripts[i])
  }

  /** That attempt also got its first Put applied. */
  predicate Saves(ws: seq<World>, scripts: seq<seq<Outcome>>, id: EnvId, n: nat)
    requires n <= |scripts| < |ws|
  {
    exists i | 0 <= i < n :: MakesDb(ws[i], id, scripts[i]) && DbSaved(scripts[i])
  }

  ghost predicate NamesDb(w: World, id: EnvId) {
    id in w.store && w.store[id].rdsInstanceId != "" && DbKey(w.store[id].rdsInstanceId) in w.ledger
  }

  /** Rds given up after any number of attempts, in real mode. A database stays behind if and only if one of them
      created it, and then the vpc step cannot be compensated either. The record names it before the failure overwrite
      if and only if the creating attempt also got its first Put applied; after the overwrite no record does. */
  lemma RdsFailureWriteOrphansIff(cfg: Settings, id: EnvId, ws: seq<World>, scripts: seq<seq<Outcome>>, keys: set<Key>,
                                  stale: Record, undo: seq<Outcome>)
    requires Tried(cfg, id, Rds, ws, scripts, keys) && stale.rdsInstanceId == ""
    requires Real(ws[0], id) && ws[0].store[id].rdsInstanceId == "" && Db(id) !in ws[0].ledger
    ensures
      var n := |scripts|;
      var x, y := ws[n], Overwritten(ws[n], id, stale);
      && x.ledger.Keys == ws[0].ledger.Keys + (if Makes(ws, scripts, id, n) then {Db(id)} else {})
      && (NamesDb(x, id) <==> Saves(ws, scripts, id, n))
      && y.ledger == x.ledger && !NamesDb(y, id)
      && (Makes(ws, scripts, id, n) && ws[0].store[id].securityGroupId != "" ==>
            Serve(cfg, x, id, Vpc, Compensate, undo).0 == x && Serve(cfg, x, id, Vpc, Compensate, undo).1 != Acked)
  {
    hide Serve, DbName, Makes, Saves;
    var n := |scripts|;
    RdsTries(cfg, id, ws, scripts, keys, n);
    if Makes(ws, scripts, id, n) && ws[0].store[id].securityGroupId != "" {
      var x := ws[n];
      assert GroupKey(x.store[id].securityGroupId) in Uses(x.ledger[Db(id)]);
      VpcIsHeld(cfg, x, id, undo);
    }
  }

  // ----- ec2 -----

  /** The instance an attempt launches: on a marked record only if the check was answered and did not find it
      running. */
  function LaunchedBy(w: World, id: EnvId, script: seq<Outcome>): set<Key> {
    if id !in w.store || |script| < 2 || !script[0].Ok? then {}
    else if w.store[id].ec2InstanceId != "" && (!script[1].Ok? || AlreadyDone(Ec2, w.store[id], w.ledger)) then {}
    else if InstanceCreated(w, w.store[id], script) then {InstanceKey(script[2].value)}
    else {}
  }

  /** After some attempts, seen from the world before them: the instances they launched, and whether one is recorded. */
  ghost predicate Ec2State(w: World, x: World, id: EnvId, launched: set<Key>, saved: bool) {
    && Real(w, id) && Real(x, id) && x.store == w.store[id := x.store[id]]
    && AgreeOutside(Ec2, w.store[id], x.store[id])
    && x.ledger.Keys == w.ledger.Keys + launched && launched !! w.ledger.Keys
    && (forall k :: k in launched ==> x.ledger[k].InstanceItem? && x.ledger[k].group == w.store[id].securityGroupId)
    && (saved <==> x.store[id].ec2InstanceId != "")
    && (saved ==> InstanceKey(x.store[id].ec2InstanceId) in launched)
  }

  lemma Ec2Matures(w: World, x: World, y: World, id: EnvId, launched: set<Key>, saved: bool, keys: set<Key>)
    requires Ec2State(w, x, id, launched, saved) && Matures(x, y, keys)
    ensures Ec2State(w, y, id, launched, saved)
  {
    hide Blank;
  }

  lemma Ec2CheckIs(cfg: Settings, w: World, r: Record, o: Outcome)
    requires !r.dryRun
    ensures
      Perform(cfg, Ec2, Check, w, r, o)
      == if r.ec2InstanceId != "" && !o.Ok? then Stop(w, Refused)
      else if r.ec2InstanceId != "" && AlreadyDone(Ec2, r, w.ledger) then Stop(w, Acked)
      else Go(w, r)
  {
  }

  /** One attempt, recorded or not: it launches what LaunchedBy says, or changes nothing. */
  lemma Ec2TryIs(cfg: Settings, w: World, id: EnvId, script: seq<Outcome>)
    requires Real(w, id)
    ensures
      var w' := Serve(cfg, w, id, Ec2, Forward, script).0;
      if LaunchedBy(w, id, script) == {} then w' == w
      else AfterEc2Attempt(w, w', id, script) && InstanceCreated(w, w.store[id], script)
  {
    hide Carry, Perform, AfterEc2Attempt, InstanceCreated, AlreadyDone;
    var r := w.store[id];
    if |script| > 0 && script[0].Ok? {
      assert ForwardProgram(cfg, Ec2, r) == EC2_PROGRAM;
      if |script| == 1 {
        CarryOver(cfg, Ec2, w, r, EC2_PROGRAM, 0, script);
      } else {
        CarryIs(cfg, Ec2, w, r, EC2_PROGRAM, 0, script);
        Ec2CheckIs(cfg, w, r, script[1]);
        Ec2Attempt(cfg, w, r, script);
        if !InstanceCreated(w, r, script) {
          NoInstance(w, Carry(cfg, Ec2, w, r, EC2_PROGRAM, 1, script).0, id, script);
        }
      }
    }
  }

  lemma NoInstance(w: World, w': World, id: EnvId, script: seq<Outcome>)
    requires id in w.store && AfterEc2Attempt(w, w', id, script) && !InstanceCreated(w, w.store[id], script)
    ensures w' == w
  {
  }

  lemma Ec2Try(cfg: Settings, w: World, x: World, id: EnvId, launched: set<Key>, saved: bool, script: seq<Outcome>)
    requires Ec2State(w, x, id, launched, saved)
    ensures
      var now := LaunchedBy(x, id, script);
      Ec2State(w, Serve(cfg, x, id, Ec2, Forward, script).0, id, launched + now,
               saved || (now != {} && InstanceSaved(script)))
  {
    hide Serve, Short, Blank, InstanceSaved, AlreadyDone;
    Ec2TryIs(cfg, x, id, script);
    if LaunchedBy(x, id, script) == {} {
      assert launched + {} == launched;
    } else {
      LaunchKeeps(w, x, Serve(cfg, x, id, Ec2, Forward, script).0, id, launched, saved, script);
    }
  }

  lemma LaunchKeeps(w: World, x: World, y: World, id: EnvId, launched: set<Key>, saved: bool, script: seq<Outcome>)
    requires Ec2State(w, x, id, launched, saved) && AfterEc2Attempt(x, y, id, script)
             && InstanceCreated(x, x.store[id], script)
    ensures Ec2State(w, y, id, launched + {InstanceKey(script[2].value)}, saved || InstanceSaved(script))
  {
    hide Short, Blank;
    SameGroup(Ec2, w.store[id], x.store[id]);
    assert y.store == w.store[id := y.store[id]];
    assert y.ledger.Keys == x.ledger.Keys + {InstanceKey(script[2].value)};
    if InstanceSaved(script) { StillAgreesEc2(w.store[id], x.store[id], y.store[id]); }
  }

  lemma StillAgreesEc2(r: Record, s: Record, t: Record)
    requires AgreeOutside(Ec2, r, s) && AgreeOutside(Ec2, s, t)
    ensures AgreeOutside(Ec2, r, t) && t.dryRun == r.dryRun && t.id == r.id
  {
  }

  function AllLaunched(ws: seq<World>, scripts: seq<seq<Outcome>>, id: EnvId, n: nat): set<Key>
    requires n <= |scripts| < |ws|
  {
    if n == 0 then {} else AllLaunched(ws, scripts, id, n - 1) + LaunchedBy(ws[n - 1], id, scripts[n - 1])
  }

  /** One of the first n attempts launched an instance and got its first Put applied. */
  predicate SomeSaved(ws: seq<World>, scripts: seq<seq<Outcome>>, id: EnvId, n: nat)
    requires n <= |scripts| < |ws|
  {
    exists i | 0 <= i < n :: LaunchedBy(ws[i], id, scripts[i]) != {} && InstanceSaved(scripts[i])
  }

  lemma {:induction false} Ec2Tries(cfg: Settings, id: EnvId, ws: seq<World>, scripts: seq<seq<Outcome>>,
                                    keys: set<Key>, n: nat)
    requires Tried(cfg, id, Ec2, ws, scripts, keys) && n <= |scripts|
    requires Real(ws[0], id) && ws[0].store[id].ec2InstanceId == ""
    ensures Ec2State(ws[0], ws[n], id, AllLaunched(ws, scripts, id, n), SomeSaved(ws, scripts, id, n))
  {
    hide Serve, LaunchedBy, InstanceSaved, Ec2State, Matures;
    if n == 0 {
      NoneYet(ws[0], id);
    } else {
      Ec2Tries(cfg, id, ws, scripts, keys, n - 1);
      var launched, saved := AllLaunched(ws, scripts, id, n - 1), SomeSaved(ws, scripts, id, n - 1);
      Ec2Try(cfg, ws[0], ws[n - 1], id, launched, saved, scripts[n - 1]);
      var now := LaunchedBy(ws[n - 1], id, scripts[n - 1]);
      Ec2Matures(ws[0], Serve(cfg, ws[n - 1], id, Ec2, Forward, scripts[n - 1]).0, ws[n], id, launched + now,
                 saved || (now != {} && InstanceSaved(scripts[n - 1])), keys);
    }
  }

  lemma NoneYet(w: World, id: EnvId)
    requires Real(w, id) && w.store[id].ec2InstanceId == ""
    ensures Ec2State(w, w, id, {}, false)
  {
    assert w.store == w.store[id := w.store[id]];
  }

  ghost predicate NamesInstance(w: World, id: EnvId) {
    id in w.store && w.store[id].ec2InstanceId != "" && InstanceKey(w.store[id].ec2InstanceId) in w.ledger
  }

  /** The same for ec2: exactly the launched instances are new and stay behind, and hold the network. The record names
      one of them before the failure overwrite if and only if some attempt that launched one got its first Put applied;
      after the overwrite it names none. */
  lemma Ec2FailureWriteOrphansIff(cfg: Settings, id: EnvId, ws: seq<World>, scripts: seq<seq<Outcome>>, keys: set<Key>,
                                  stale: Record, undo: seq<Outcome>)
    requires Tried(cfg, id, Ec2, ws, scripts, keys) && stale.ec2InstanceId == ""
    requires Real(ws[0], id) && ws[0].store[id].ec2InstanceId == ""
    ensures
      var n := |scripts|;
      var x, y := ws[n], Overwritten(ws[n], id, stale);
      && x.ledger.Keys - ws[0].ledger.Keys == AllLaunched(ws, scripts, id, n)
      && (NamesInstance(x, id) <==> SomeSaved(ws, scripts, id, n))
      && y.ledger == x.ledger && !NamesInstance(y, id)
      && (AllLaunched(ws, scripts, id, n) != {} && ws[0].store[id].securityGroupId != "" ==>
            Serve(cfg, x, id, Vpc, Compensate, undo).0 == x && Serve(cfg, x, id, Vpc, Compensate, undo).1 != Acked)
  {
    hide Serve, AllLaunched, SomeSaved;
    var n := |scripts|;
    Ec2Tries(cfg, id, ws, scripts, keys, n);
    if AllLaunched(ws, scripts, id, n) != {} && ws[0].store[id].securityGroupId != "" {
      var x := ws[n];
      var k :| k in AllLaunched(ws, scripts, id, n);
      assert GroupKey(x.store[id].securityGroupId) in Uses(x.ledger[k]);
      VpcIsHeld(cfg, x, id, undo);
    }
  }
}
