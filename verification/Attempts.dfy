/** One request, with faults or a crash anywhere: what can be in the store and in the cloud afterwards. */
module Attempts {
  import opened Records
  import opened Ledgers
  import opened Handlers
  import opened Sessions
  import opened Cascade

  // ----- error atomicity -----

  /** A Put that fails is not applied. */
  predicate CleanPuts(prog: seq<Action>, script: seq<Outcome>) {
    forall pc | 0 <= pc < |prog| && pc + 1 < |script| && prog[pc] == Put :: !script[pc + 1].Lost?
  }

  /** With at most a final Put ahead, a handler that ends in an error has not touched the store. */
  lemma {:induction false} ErrorBeforeLastPut(cfg: Settings, step: Step, w: World, r: Record, prog: seq<Action>,
                                              pc: nat, script: seq<Outcome>)
    requires pc <= |prog| && CleanPuts(prog, script)
    requires forall i | pc <= i < |prog| - 1 :: prog[i] != Put
    requires Carry(cfg, step, w, r, prog, pc, script).1 == Refused
    ensures Carry(cfg, step, w, r, prog, pc, script).0.store == w.store
    decreases |prog| - pc
  {
    hide Perform;
    if pc < |prog| && pc + 1 < |script| {
      PerformStores(cfg, step, prog[pc], w, r, script[pc + 1]);
      var v := Perform(cfg, step, prog[pc], w, r, script[pc + 1]);
      if v.Go? && prog[pc] != Put {
        ErrorBeforeLastPut(cfg, step, v.world, v.local, prog, pc + 1, script);
      }
    }
  }

  /** The partial records that rds and ec2 may leave behind an error: they save before they poll. */
  predicate SavedEarly(step: Step, r: Record, r': Record) {
    match step
    case Rds => r' == r.(rdsInstanceId := DbName(r.id), rdsPassword := r'.rdsPassword)
    case Ec2 => r' == r.(ec2InstanceId := r'.ec2InstanceId)
    case _ => false
  }

  lemma OnePutPrograms(cfg: Settings, step: Step, dir: Direction, r: Record)
    requires dir == Compensate || r.dryRun || step !in {Rds, Ec2}
    ensures
      var prog := Program(cfg, step, dir, r);
      forall i | 0 <= i < |prog| - 1 :: prog[i] != Put
  {
  }

  lemma EarlyPutRds(cfg: Settings, w: World, r: Record, script: seq<Outcome>)
    requires CleanPuts(RDS_PROGRAM, script) && !r.dryRun
    requires Carry(cfg, Rds, w, r, RDS_PROGRAM, 0, script).1 == Refused
    ensures
      var w' := Carry(cfg, Rds, w, r, RDS_PROGRAM, 0, script).0;
      w'.store == w.store || (r.id in w'.store && w'.store == w.store[r.id := w'.store[r.id]]
                              && SavedEarly(Rds, r, w'.store[r.id]))
  {
    hide Carry, Perform, DbName;
    var prog := RDS_PROGRAM;
    CarryUnfolds(cfg, Rds, w, r, prog, 0, script);
    PerformStores(cfg, Rds, Check, w, r, script[1]);
    if Perform(cfg, Rds, Check, w, r, script[1]).Go? {
      CheckGoes(cfg, w, r, script[1]);
      CarryUnfolds(cfg, Rds, w, r, prog, 1, script);
      var v1 := Perform(cfg, Rds, NameDb, w, r, script[2]);
      PerformStores(cfg, Rds, NameDb, w, r, script[2]);
      if v1.Go? {
        NameDbLocal(cfg, w, r, script[2]);
        EarlyPutAfterNaming(cfg, w, v1.local, script);
      }
    }
  }

  lemma CheckGoes(cfg: Settings, w: World, r: Record, o: Outcome)
    requires Perform(cfg, Rds, Check, w, r, o).Go?
    ensures Perform(cfg, Rds, Check, w, r, o) == Go(w, r)
  {
    hide With, Without, AlreadyDone, AsksCloud;
  }

  /** From the create on: the store stays, or holds the record with the name and the password in it. */
  lemma EarlyPutAfterNaming(cfg: Settings, w: World, r: Record, script: seq<Outcome>)
    requires CleanPuts(RDS_PROGRAM, script) && Carry(cfg, Rds, w, r, RDS_PROGRAM, 2, script).1 == Refused
    ensures
      var w' := Carry(cfg, Rds, w, r, RDS_PROGRAM, 2, script).0;
      w'.store == w.store || w'.store == w.store[r.id := r]
  {
    hide Carry, Perform;
    var prog := RDS_PROGRAM;
    CarryUnfolds(cfg, Rds, w, r, prog, 2, script);
    var v2 := Perform(cfg, Rds, CreateDb, w, r, script[3]);
    PerformStores(cfg, Rds, CreateDb, w, r, script[3]);
    if v2.Go? {
      CreateDbLocal(cfg, w, r, script[3]);
      CarryUnfolds(cfg, Rds, v2.world, r, prog, 3, script);
      PutIs(cfg, Rds, v2.world, r, script[4]);
      if script[4].Ok? {
        ErrorBeforeLastPut(cfg, Rds, v2.world.(store := v2.world.store[r.id := r]), r, prog, 4, script);
      }
    }
  }

  lemma NameDbLocal(cfg: Settings, w: World, r: Record, o: Outcome)
    requires Perform(cfg, Rds, NameDb, w, r, o).Go?
    ensures Perform(cfg, Rds, NameDb, w, r, o) == Go(w, r.(rdsPassword := o.value, rdsInstanceId := DbName(r.id)))
  {
    hide DbName;
  }

  lemma CreateDbLocal(cfg: Settings, w: World, r: Record, o: Outcome)
    requires Perform(cfg, Rds, CreateDb, w, r, o).Go?
    ensures Perform(cfg, Rds, CreateDb, w, r, o).local == r
  {
  }

  /** A handler still to answer with an error goes through its next action. */
  lemma CarryUnfolds(cfg: Settings, step: Step, w: World, r: Record, prog: seq<Action>, pc: nat, script: seq<Outcome>)
    requires pc < |prog| && Carry(cfg, step, w, r, prog, pc, script).1 == Refused
    ensures pc + 1 < |script|
    ensures
      match Perform(cfg, step, prog[pc], w, r, script[pc + 1])
      case Go(w', r') => Carry(cfg, step, w, r, prog, pc, script) == Carry(cfg, step, w', r', prog, pc + 1, script)
      case Stop(w', answer) => Carry(cfg, step, w, r, prog, pc, script) == (w', answer)
  {
    hide Perform;
  }

  lemma EarlyPutEc2(cfg: Settings, w: World, r: Record, script: seq<Outcome>)
    requires CleanPuts(EC2_PROGRAM, script) && !r.dryRun
    requires Carry(cfg, Ec2, w, r, EC2_PROGRAM, 0, script).1 == Refused
    ensures
      var w' := Carry(cfg, Ec2, w, r, EC2_PROGRAM, 0, script).0;
      w'.store == w.store || (r.id in w'.store && w'.store == w.store[r.id := w'.store[r.id]]
                              && SavedEarly(Ec2, r, w'.store[r.id]))
  {
    hide Carry, Legal, Apply, With, Without, DbName;
    var prog := EC2_PROGRAM;
    CarryUnfolds(cfg, Ec2, w, r, prog, 0, script);
    var v0 := Perform(cfg, Ec2, Check, w, r, script[1]);
    if v0.Go? {
      CarryUnfolds(cfg, Ec2, w, r, prog, 1, script);
      var v1 := Perform(cfg, Ec2, RunInstance, w, r, script[2]);
      PerformStores(cfg, Ec2, RunInstance, w, r, script[2]);
      if v1.Go? {
        CarryUnfolds(cfg, Ec2, v1.world, v1.local, prog, 2, script);
        if script[3].Ok? {
          var v2 := v1.world.(store := v1.world.store[r.id := v1.local]);
          ErrorBeforeLastPut(cfg, Ec2, v2, v1.local, prog, 3, script);
        }
      }
    }
  }

  /** Error atomicity: a request answered with an error leaves the stored records as they were, except that a
      real rds or ec2 Execute may have recorded the resource it was about to wait for. */
  lemma ErrorLeavesStore(cfg: Settings, w: World, id: EnvId, step: Step, dir: Direction, script: seq<Outcome>)
    requires id in w.store ==> w.store[id].id == id && CleanPuts(Program(cfg, step, dir, w.store[id]), script)
    requires Serve(cfg, w, id, step, dir, script).1 in {Refused, Missing}
    ensures
      var w' := Serve(cfg, w, id, step, dir, script).0;
      || w'.store == w.store
      || (&& dir == Forward && step in {Rds, Ec2} && id in w.store && !w.store[id].dryRun
          && id in w'.store && w'.store == w.store[id := w'.store[id]] && SavedEarly(step, w.store[id], w'.store[id]))
  {
    hide Carry, SavedEarly;
    if script[0].Ok? && id in w.store {
      var r := w.store[id];
      NeverMissing(cfg, step, w, r, Program(cfg, step, dir, r), 0, script);
      if dir == Compensate || r.dryRun || step !in {Rds, Ec2} {
        OnePutPrograms(cfg, step, dir, r);
        ErrorBeforeLastPut(cfg, step, w, r, Program(cfg, step, dir, r), 0, script);
      } else if step == Rds {
        EarlyPutRds(cfg, w, r, script);
      } else {
        EarlyPutEc2(cfg, w, r, script);
      }
    }
  }

  lemma {:induction false} NeverMissing(cfg: Settings, step: Step, w: World, r: Record, prog: seq<Action>, pc: nat,
                                        script: seq<Outcome>)
    requires pc <= |prog|
    ensures Carry(cfg, step, w, r, prog, pc, script).1 != Missing
    decreases |prog| - pc
  {
    hide Perform;
    if pc < |prog| && pc + 1 < |script| {
      PerformNeverMissing(cfg, step, prog[pc], w, r, script[pc + 1]);
      var v := Perform(cfg, step, prog[pc], w, r, script[pc + 1]);
      if v.Go? { NeverMissing(cfg, step, v.world, v.local, prog, pc + 1, script); }
    }
  }

  lemma PerformNeverMissing(cfg: Settings, step: Step, a: Action, w: World, r: Record, o: Outcome)
    ensures var v := Perform(cfg, step, a, w, r, o); v.Stop? ==> v.answer in {Acked, Refused}
  {
    hide With, Without, Updated, Skips, Intent, Legal, Apply, PurgeSome, AlreadyDone, AsksCloud;
  }

  // ----- save before polling -----

  /** CreateDBInstance took effect in this attempt. */
  predicate DbCreated(w: World, r: Record, script: seq<Outcome>) {
    && |script| > 3 && script[2].Ok? && (script[3].Ok? || script[3].Lost?)
    && DbKey(DbName(r.id)) !in w.ledger && GroupKey(r.securityGroupId) in w.ledger
  }

  /** The first Put was then reached and applied. */
  predicate DbSaved(script: seq<Outcome>) {
    |script| > 4 && script[3].Ok? && (script[4].Ok? || script[4].Lost?)
  }

  /** The record names the live instance and knows its password. */
  predicate DbRecorded(w: World, id: EnvId) {
    && id in w.store && w.store[id].rdsInstanceId == DbName(id)
    && DbKey(DbName(id)) in w.ledger && w.ledger[DbKey(DbName(id))].DbItem?
    && w.ledger[DbKey(DbName(id))].password == w.store[id].rdsPassword
  }

  /** After the first Put, seen from the world it left: only the instance's state and the recorded endpoint still
      change. */
  ghost predicate RdsWaiting(w0: World, w: World, r: Record) {
    var D := DbKey(r.rdsInstanceId);
    && r.rdsInstanceId == DbName(r.id) && D in w0.ledger && w0.ledger[D].DbItem?
    && D in w.ledger && w.ledger[D].DbItem? && w.ledger == w0.ledger[D := w0.ledger[D].(dbState := w.ledger[D].dbState)]
    && r.id in w.store && w.store == w0.store[r.id := w.store[r.id]]
    && w.store[r.id] == r.(rdsEndpoint := w.store[r.id].rdsEndpoint)
    && w.issued == w0.issued
  }

  lemma RdsPollingStep(cfg: Settings, w0: World, w: World, r: Record, a: Action, o: Outcome)
    requires RdsWaiting(w0, w, r) && (a == WaitDbAvailable || a == DescribeDb || a == Put)
    ensures
      var v := Perform(cfg, Rds, a, w, r, o);
      RdsWaiting(w0, v.world, r)
      && (v.Go? ==> RdsWaiting(w0, v.world, v.local) && v.local == r.(rdsEndpoint := v.local.rdsEndpoint))
  {
    hide DbName, Perform;
    if a == Put {
      PutIs(cfg, Rds, w, r, o);
    } else if a == WaitDbAvailable {
      WaitPolls(cfg, w, r, o);
    } else {
      DescribePolls(cfg, w, r, o);
    }
  }

  lemma WaitPolls(cfg: Settings, w: World, r: Record, o: Outcome)
    requires DbKey(r.rdsInstanceId) in w.ledger && w.ledger[DbKey(r.rdsInstanceId)].DbItem?
    ensures
      var v, D := Perform(cfg, Rds, WaitDbAvailable, w, r, o), DbKey(r.rdsInstanceId);
      && v.world in {w, w.(ledger := w.ledger[D := w.ledger[D].(dbState := Available)])}
      && (v.Go? ==> v.local == r)
  {
    hide With, Without;
  }

  lemma DescribePolls(cfg: Settings, w: World, r: Record, o: Outcome)
    ensures
      var v := Perform(cfg, Rds, DescribeDb, w, r, o);
      v.world == w && (v.Go? ==> v.local == r.(rdsEndpoint := v.local.rdsEndpoint))
  {
    hide With, Without;
  }

  lemma {:induction false} RdsPolling(cfg: Settings, w0: World, w: World, r: Record, pc: nat, script: seq<Outcome>)
    requires 4 <= pc <= |RDS_PROGRAM| && RdsWaiting(w0, w, r)
    ensures RdsWaiting(w0, Carry(cfg, Rds, w, r, RDS_PROGRAM, pc, script).0, r)
    decreases |RDS_PROGRAM| - pc
  {
    hide Carry, DbName, Perform, RdsWaiting;
    if pc < |RDS_PROGRAM| && pc + 1 < |script| {
      var v := Perform(cfg, Rds, RDS_PROGRAM[pc], w, r, script[pc + 1]);
      RdsPollingStep(cfg, w0, w, r, RDS_PROGRAM[pc], script[pc + 1]);
      CarryIs(cfg, Rds, w, r, RDS_PROGRAM, pc, script);
      if v.Go? {
        RdsPolling(cfg, w0, v.world, v.local, pc + 1, script);
        SameWaiting(w0, Carry(cfg, Rds, v.world, v.local, RDS_PROGRAM, pc + 1, script).0, r, v.local);
      }
    } else {
      CarryOver(cfg, Rds, w, r, RDS_PROGRAM, pc, script);
    }
  }

  lemma SameWaiting(w0: World, w: World, r: Record, s: Record)
    requires RdsWaiting(w0, w, s) && s == r.(rdsEndpoint := s.rdsEndpoint)
    ensures RdsWaiting(w0, w, r)
  {
  }

  lemma CarryIs(cfg: Settings, step: Step, w: World, r: Record, prog: seq<Action>, pc: nat, script: seq<Outcome>)
    requires pc < |prog| && pc + 1 < |script|
    ensures
      match Perform(cfg, step, prog[pc], w, r, script[pc + 1])
      case Go(w', r') => Carry(cfg, step, w, r, prog, pc, script) == Carry(cfg, step, w', r', prog, pc + 1, script)
      case Stop(w', answer) => Carry(cfg, step, w, r, prog, pc, script) == (w', answer)
  {
    hide Perform;
  }

  lemma CarryOver(cfg: Settings, step: Step, w: World, r: Record, prog: seq<Action>, pc: nat, script: seq<Outcome>)
    requires pc <= |prog| && (pc == |prog| || pc + 1 >= |script|)
    ensures Carry(cfg, step, w, r, prog, pc, script).0 == w
  {
  }

  /** The attempt's create took effect. */
  predicate DbCreatedBy(w: World, id: EnvId, script: seq<Outcome>)
    requires id in w.store
  {
    |script| > 0 && script[0].Ok? && DbCreated(w, w.store[id], script)
  }

  /** What one rds attempt on an unrecorded environment leaves. */
  ghost predicate AfterRdsAttempt(w: World, w': World, id: EnvId, created: bool, saved: bool)
    requires id in w.store
  {
    var D := DbKey(DbName(id));
    if !created then w' == w
    else
      && D in w'.ledger && w'.ledger[D].DbItem? && w'.ledger == w.ledger[D := w'.ledger[D]] && w'.issued == w.issued
      && w'.ledger[D].group == w.store[id].securityGroupId
      && id in w'.store && w'.store == w.store[id := w'.store[id]]
      && (if saved then DbRecorded(w', id) && AgreeOutside(Rds, w.store[id], w'.store[id]) else w'.store == w.store)
  }

  /** Save before polling: one rds attempt, cut or failed anywhere. The instance it created is named in the record,
      with its password, exactly when the attempt got past its first Put; from there no crash, timeout or describe
      error loses it. Only the gap between the create and that Put can leave it unrecorded. */
  lemma RdsSavedBeforePolling(cfg: Settings, w: World, id: EnvId, script: seq<Outcome>)
    requires Real(w, id) && w.store[id].rdsInstanceId == "" && DbKey(DbName(id)) !in w.ledger
    ensures AfterRdsAttempt(w, Serve(cfg, w, id, Rds, Forward, script).0, id, DbCreatedBy(w, id, script),
                            DbSaved(script))
  {
    hide Carry, Perform, DbName, AfterRdsAttempt, DbSaved;
    var r := w.store[id];
    if |script| > 0 && script[0].Ok? {
      assert Serve(cfg, w, id, Rds, Forward, script) == Carry(cfg, Rds, w, r, RDS_PROGRAM, 0, script);
      if |script| > 1 {
        CarryIs(cfg, Rds, w, r, RDS_PROGRAM, 0, script);
        RdsNotDone(cfg, w, r, script[1]);
        RdsAttempt(cfg, w, r, script);
      } else {
        CarryOver(cfg, Rds, w, r, RDS_PROGRAM, 0, script);
        NothingCreated(w, id, DbSaved(script));
      }
    } else {
      NothingCreated(w, id, DbSaved(script));
    }
  }

  lemma NothingCreated(w: World, id: EnvId, saved: bool)
    requires id in w.store
    ensures AfterRdsAttempt(w, w, id, false, saved)
  {
  }

  lemma RdsNotDone(cfg: Settings, w: World, r: Record, o: Outcome)
    requires r.rdsInstanceId == ""
    ensures Perform(cfg, Rds, Check, w, r, o) == Go(w, r)
  {
    hide With, Without;
  }

  lemma RdsAttempt(cfg: Settings, w: World, r: Record, script: seq<Outcome>)
    requires DbKey(DbName(r.id)) !in w.ledger && |script| > 1 && r.id in w.store && w.store[r.id] == r
    ensures AfterRdsAttempt(w, Carry(cfg, Rds, w, r, RDS_PROGRAM, 1, script).0, r.id, DbCreated(w, r, script),
                            DbSaved(script))
  {
    hide Carry, Perform, DbName, RdsWaiting;
    var D := DbKey(DbName(r.id));
    if |script| == 2 {
      CarryOver(cfg, Rds, w, r, RDS_PROGRAM, 1, script);
    } else {
      CarryIs(cfg, Rds, w, r, RDS_PROGRAM, 1, script);
      NameDbIs(cfg, w, r, script[2]);
      if script[2].Ok? {
        var r1 := r.(rdsPassword := script[2].value, rdsInstanceId := DbName(r.id));
        if |script| == 3 {
          CarryOver(cfg, Rds, w, r1, RDS_PROGRAM, 2, script);
        } else {
          CarryIs(cfg, Rds, w, r1, RDS_PROGRAM, 2, script);
          CreateDbIs(cfg, w, r1, script[3]);
          if (script[3].Ok? || script[3].Lost?) && GroupKey(r.securityGroupId) in w.ledger {
            RdsAttemptTail(cfg, w, r, r1, script);
          }
        }
      }
    }
  }

  lemma RdsAttemptTail(cfg: Settings, w: World, r: Record, r1: Record, script: seq<Outcome>)
    requires r.id in w.store && w.store[r.id] == r
             && r1 == r.(rdsPassword := r1.rdsPassword, rdsInstanceId := DbName(r.id))
    requires |script| > 3 && script[2].Ok? && DbCreated(w, r, script)
    ensures
      var D := DbKey(DbName(r.id));
      var w2 := w.(ledger := w.ledger[D := DbItem(r.securityGroupId, r1.rdsPassword, Creating)]);
      && AfterRdsAttempt(w, w2, r.id, true, false)
      && (script[3].Ok? ==> AfterRdsAttempt(w, Carry(cfg, Rds, w2, r1, RDS_PROGRAM, 3, script).0, r.id, true,
                                            DbSaved(script)))
  {
    hide Carry, Perform, DbName;
    var D := DbKey(DbName(r.id));
    var w2 := w.(ledger := w.ledger[D := DbItem(r.securityGroupId, r1.rdsPassword, Creating)]);
    assert w.store == w.store[r.id := r];
    if |script| == 4 {
      CarryOver(cfg, Rds, w2, r1, RDS_PROGRAM, 3, script);
    } else {
      CarryIs(cfg, Rds, w2, r1, RDS_PROGRAM, 3, script);
      PutIs(cfg, Rds, w2, r1, script[4]);
      if script[4].Ok? {
        var w3 := w2.(store := w2.store[r.id := r1]);
        RdsPolling(cfg, w3, w3, r1, 4, script);
      }
    }
  }

  lemma NameDbIs(cfg: Settings, w: World, r: Record, o: Outcome)
    ensures Perform(cfg, Rds, NameDb, w, r, o)
         == if o.Ok? then Go(w, r.(rdsPassword := o.value, rdsInstanceId := DbName(r.id))) else Stop(w, Refused)
  {
    hide DbName, With, Without;
  }

  lemma CreateDbIs(cfg: Settings, w: World, r: Record, o: Outcome)
    requires r.rdsInstanceId == DbName(r.id) && DbKey(DbName(r.id)) !in w.ledger
    ensures
      var w' := w.(ledger := w.ledger[DbKey(DbName(r.id)) := DbItem(r.securityGroupId, r.rdsPassword, Creating)]);
      Perform(cfg, Rds, CreateDb, w, r, o)
      == if (o.Ok? || o.Lost?) && GroupKey(r.securityGroupId) in w.ledger
      then (if o.Ok? then Go(w', r) else Stop(w', Refused))
      else Stop(w, Refused)
  {
    hide DbName, With, Without;
  }

  lemma PutIs(cfg: Settings, step: Step, w: World, r: Record, o: Outcome)
    ensures
      var w' := w.(store := w.store[r.id := r]);
      Perform(cfg, step, Put, w, r, o) == if o.Ok? then Go(w', r) else if o.Lost? then Stop(w', Refused)
      else Stop(w, Refused)
  {
  }

  /** An acknowledged rds compensation, of a record that names an instance, has deleted it and emptied the group. */
  lemma RdsUndone(cfg: Settings, w: World, id: EnvId, script: seq<Outcome>)
    requires Real(w, id) && w.store[id].rdsInstanceId != "" && Serve(cfg, w, id, Rds, Compensate, script).1 == Acked
    ensures
      Serve(cfg, w, id, Rds, Compensate, script).0
      == w.(store := w.store[id := Blank(Rds, w.store[id])], ledger := w.ledger - {DbKey(w.store[id].rdsInstanceId)})
  {
    hide Serve, Carry, Perform, Without, Blank;
    var r := w.store[id];
    var D := DbKey(r.rdsInstanceId);
    CompensateStarts(cfg, w, id, Rds, RDS_UNDO, script);
    CarryStep(cfg, Rds, w, r, RDS_UNDO, 0, script);
    DeleteDbDone(cfg, w, r, script[1]);
    var w1 := Perform(cfg, Rds, DeleteDb, w, r, script[1]).world;
    CarryStep(cfg, Rds, w1, r, RDS_UNDO, 1, script);
    DbGone(cfg, w1, r, script[2]);
    var w2 := w.(ledger := w.ledger - {D});
    assert w1.ledger - {D} == w2.ledger;
    WipedAndSaved(cfg, Rds, w2, r, RDS_UNDO, 2, script);
  }

  lemma CompensateStarts(cfg: Settings, w: World, id: EnvId, step: Step, prog: seq<Action>, script: seq<Outcome>)
    requires Real(w, id) && CompensateProgram(cfg, step, w.store[id]) == prog
             && Serve(cfg, w, id, step, Compensate, script).1 == Acked
    ensures Serve(cfg, w, id, step, Compensate, script) == Carry(cfg, step, w, w.store[id], prog, 0, script)
  {
    hide CompensateProgram, Carry;
  }

  lemma DeleteDbDone(cfg: Settings, w: World, r: Record, o: Outcome)
    requires Perform(cfg, Rds, DeleteDb, w, r, o).Go?
    ensures
      var D := DbKey(r.rdsInstanceId);
      && D in w.ledger && w.ledger[D].DbItem?
      && Perform(cfg, Rds, DeleteDb, w, r, o) == Go(w.(ledger := w.ledger[D := w.ledger[D].(dbState := Deleting)]), r)
  {
    hide With, Without;
  }

  lemma DbGone(cfg: Settings, w: World, r: Record, o: Outcome)
    requires Perform(cfg, Rds, WaitDbDeleted, w, r, o).Go?
    ensures Perform(cfg, Rds, WaitDbDeleted, w, r, o) == Go(w.(ledger := w.ledger - {DbKey(r.rdsInstanceId)}), r)
  {
    hide With, Without;
  }

  /** The acknowledged end of a compensation. */
  lemma WipedAndSaved(cfg: Settings, step: Step, w: World, r: Record, prog: seq<Action>, pc: nat, script: seq<Outcome>)
    requires step != Registry && pc + 2 == |prog| && prog[pc] == Wipe && prog[pc + 1] == Put
    requires Carry(cfg, step, w, r, prog, pc, script).1 == Acked
    ensures Carry(cfg, step, w, r, prog, pc, script).0 == w.(store := w.store[r.id := Blank(step, r)])
  {
    hide Carry, Perform, Blank;
    CarryStep(cfg, step, w, r, prog, pc, script);
    WipeIs(cfg, step, w, r, script[pc + 1]);
    CarryStep(cfg, step, w, Blank(step, r), prog, pc + 1, script);
    Saved(cfg, step, w, Blank(step, r), script[pc + 2]);
    AckedEnd(cfg, step, w.(store := w.store[r.id := Blank(step, r)]), Blank(step, r), prog, script);
  }

  lemma WipeIs(cfg: Settings, step: Step, w: World, r: Record, o: Outcome)
    requires step != Registry
    ensures Perform(cfg, step, Wipe, w, r, o) == Go(w, Blank(step, r)) && Blank(step, r).id == r.id
  {
  }

  /** Save before polling, there and back: whatever became of an attempt that saved the instance it created, any later
      acknowledged compensation leaves the cloud as it was before the attempt, and the group empty. */
  lemma SavedDbIsReclaimed(cfg: Settings, w: World, id: EnvId, script: seq<Outcome>, undo: seq<Outcome>)
    requires Real(w, id) && w.store[id].rdsInstanceId == "" && DbKey(DbName(id)) !in w.ledger
    requires DbCreatedBy(w, id, script) && DbSaved(script)
    requires Serve(cfg, Serve(cfg, w, id, Rds, Forward, script).0, id, Rds, Compensate, undo).1 == Acked
    ensures
      Serve(cfg, Serve(cfg, w, id, Rds, Forward, script).0, id, Rds, Compensate, undo).0
      == w.(store := w.store[id := Blank(Rds, w.store[id])])
  {
    hide Serve, DbName, DbCreatedBy, DbSaved;
    var w1 := Serve(cfg, w, id, Rds, Forward, script).0;
    RdsSavedBeforePolling(cfg, w, id, script);
    KeepsMode(Rds, w.store[id], w1.store[id]);
    RdsUndone(cfg, w1, id, undo);
    assert w1.ledger - {DbKey(DbName(id))} == w.ledger;
  }

  lemma KeepsMode(step: Step, r: Record, s: Record)
    requires AgreeOutside(step, r, s)
    ensures r.dryRun == s.dryRun && r.id == s.id
  {
  }

  // ----- at most one database instance -----

  lemma AttemptDb(cfg: Settings, a: Action, w: World, r: Record, o: Outcome)
    ensures
      var v := Attempt(cfg, a, w, r, o);
      && (forall n :: DbKey(n) in v.world.ledger ==> DbKey(n) in w.ledger || (a == CreateDb && n == r.rdsInstanceId))
      && (v.Go? ==> v.local.id == r.id && (a == NameDb ==> v.local.rdsInstanceId == DbName(r.id)))
  {
    hide Intent, Legal, Updated, DbName, Short;
    if !o.Fail? && !o.Partial? {
      IntentDb(cfg, a, w, r, o.value);
      UpdatedDb(cfg, a, r, w.ledger, o.value);
    }
  }

  predicate OnDatabases(a: Action, r: Record, l: Ledger, op: Op) {
    && (op.Create? && op.key.DbKey? ==> a == CreateDb && op.key.name == r.rdsInstanceId)
    && (op.Overwrite? ==> op.key.FileKey?)
    && (op.Change? ==> op.key in l)
  }

  predicate OfVpc(a: Action) {
    match a
    case CreateVpc | EnableDns | WaitVpc | CreatePublicSubnet | CreatePrivateSubnet | CreateGroup | AuthorizeIngress =>
      true
    case DeleteGroup | DeletePublicSubnet | DeletePrivateSubnet | DeleteVpc => true
    case _ => false
  }

  lemma IntentDb(cfg: Settings, a: Action, w: World, r: Record, value: string)
    ensures OnDatabases(a, r, w.ledger, Intent(cfg, a, r, w.ledger, value))
  {
    hide Intent, OnDatabases, OfVpc;
    if OfVpc(a) { VpcIntentDb(cfg, a, w, r, value); } else { OtherIntentDb(cfg, a, w, r, value); }
  }

  lemma VpcIntentDb(cfg: Settings, a: Action, w: World, r: Record, value: string)
    requires OfVpc(a)
    ensures OnDatabases(a, r, w.ledger, Intent(cfg, a, r, w.ledger, value))
  {
  }

  lemma OtherIntentDb(cfg: Settings, a: Action, w: World, r: Record, value: string)
    requires !OfVpc(a)
    ensures OnDatabases(a, r, w.ledger, Intent(cfg, a, r, w.ledger, value))
  {
    hide DbName, BucketName, PolicyName, EnvPath, Short, PolicyOf, EnvFileOf, ConfigJsonOf, Joined, Pushed;
  }

  lemma UpdatedDb(cfg: Settings, a: Action, r: Record, l: Ledger, value: string)
    ensures var r' := Updated(cfg, a, r, l, value); r'.id == r.id && (a == NameDb ==> r'.rdsInstanceId == DbName(r.id))
  {
    hide DbName, BucketName, PolicyName, EnvPath, AppSpiffeId, DbProxySpiffeId;
  }

  lemma PerformDb(cfg: Settings, step: Step, a: Action, w: World, r: Record, o: Outcome)
    ensures
      var v := Perform(cfg, step, a, w, r, o);
      && (forall n :: DbKey(n) in v.world.ledger ==> DbKey(n) in w.ledger || (a == CreateDb && n == r.rdsInstanceId))
      && (v.Go? ==> v.local.id == r.id && (a == NameDb ==> v.local.rdsInstanceId == DbName(r.id)))
  {
    hide Attempt, DbName, BucketName, PolicyName, EnvPath, Short;
    AttemptDb(cfg, a, w, r, o);
  }

  /** A create comes right after the identifier has been fixed. */
  predicate NamesFirst(prog: seq<Action>) {
    forall i | 0 <= i < |prog| && prog[i] == CreateDb :: i > 0 && prog[i - 1] == NameDb
  }

  lemma ProgramsNameFirst(cfg: Settings, step: Step, dir: Direction, r: Record)
    ensures NamesFirst(Program(cfg, step, dir, r))
  {
  }

  predicate DbStage(stage: Stage, id: string) {
    stage.Working? ==>
      && stage.local.id == id && NamesFirst(stage.prog)
      && (stage.pc < |stage.prog| && stage.prog[stage.pc] == CreateDb ==>
            stage.local.rdsInstanceId == DbName(stage.local.id))
  }

  ghost predicate DbSys(s: Sys, w: World, id: EnvId) {
    && (forall n :: DbKey(n) in s.world.ledger ==> DbKey(n) in w.ledger || n == DbName(id))
    && (id in s.world.store ==> s.world.store[id].id == id)
    && (forall h :: h in s.handlers ==> h.envId == id && DbStage(s.handlers[h].stage, id))
  }

  lemma DbAct(cfg: Settings, s: Sys, w: World, id: EnvId, h: Hid, o: Outcome)
    requires DbSys(s, w, id) && h in s.handlers
    ensures DbSys(Advance(cfg, s, Act(h, o)), w, id)
  {
    hide Perform, Program, DbName;
    var handler := s.handlers[h];
    if handler.stage.Loading? {
      if id in s.world.store { ProgramsNameFirst(cfg, handler.step, handler.dir, s.world.store[id]); }
    } else if handler.stage.Working? && handler.stage.pc < |handler.stage.prog| {
      var a := handler.stage.prog[handler.stage.pc];
      PerformDb(cfg, handler.step, a, s.world, handler.stage.local, o);
      PerformStores(cfg, handler.step, a, s.world, handler.stage.local, o);
    }
  }

  /** Over any number of attempts and compensations of any steps of an environment, in any interleaving, every database
      instance that was not there before bears the one identifier fixed by the environment's ID. */
  lemma {:induction false} AtMostOneDatabase(cfg: Settings, w: World, s: Sys, evs: seq<Event>, id: EnvId)
    requires DbSys(s, w, id) && forall i | 0 <= i < |evs| && evs[i].Arrive? :: evs[i].h.envId == id
    ensures DbSys(Run(cfg, s, evs), w, id)
    decreases |evs|
  {
    if evs == [] {
    } else {
      hide DbStage, Tick;
      if evs[0].Act? && evs[0].h in s.handlers {
        DbAct(cfg, s, w, id, evs[0].h, evs[0].o);
      } else {
        IdleDbStage(id);
      }
      AtMostOneDatabase(cfg, w, Advance(cfg, s, evs[0]), evs[1..], id);
    }
  }

  lemma IdleDbStage(id: string)
    ensures DbStage(Loading, id) && DbStage(Dead, id)
  {
  }

  lemma OnlyOneNewDatabase(cfg: Settings, w: World, evs: seq<Event>, id: EnvId)
    requires id in w.store ==> w.store[id].id == id
    requires forall i | 0 <= i < |evs| && evs[i].Arrive? :: evs[i].h.envId == id
    ensures forall n :: DbKey(n) in Run(cfg, Sys(w, map[]), evs).world.ledger && DbKey(n) !in w.ledger ==>
                          n == DbName(id)
  {
    hide Run;
    AtMostOneDatabase(cfg, w, Sys(w, map[]), evs, id);
  }

  // ----- ec2 -----

  predicate InstanceCreated(w: World, r: Record, script: seq<Outcome>) {
    && |script| > 2 && (script[2].Ok? || script[2].Lost?)
    && script[2].value != "" && InstanceKey(script[2].value) !in w.ledger && InstanceKey(script[2].value) !in w.issued
    && SubnetKey(r.publicSubnetId) in w.ledger && GroupKey(r.securityGroupId) in w.ledger
  }

  predicate InstanceSaved(script: seq<Outcome>) {
    |script| > 3 && script[2].Ok? && (script[3].Ok? || script[3].Lost?)
  }

  predicate InstanceRecorded(w: World, id: EnvId) {
    && id in w.store && w.store[id].ec2InstanceId != ""
    && InstanceKey(w.store[id].ec2InstanceId) in w.ledger
    && w.ledger[InstanceKey(w.store[id].ec2InstanceId)].InstanceItem?
  }

  /** After the first Put, seen from the world it left: only the instance's state and the recorded address still
      change. */
  ghost predicate Ec2Waiting(w0: World, w: World, r: Record) {
    var J := InstanceKey(r.ec2InstanceId);
    && r.ec2InstanceId != "" && J in w0.ledger && w0.ledger[J].InstanceItem?
    && J in w.ledger && w.ledger[J].InstanceItem?
    && w.ledger == w0.ledger[J := w0.ledger[J].(instanceState := w.ledger[J].instanceState)]
    && r.id in w.store && w.store == w0.store[r.id := w.store[r.id]]
    && w.store[r.id] == r.(ec2PublicIp := w.store[r.id].ec2PublicIp)
    && w.issued == w0.issued
  }

  lemma Ec2PollingStep(cfg: Settings, w0: World, w: World, r: Record, a: Action, o: Outcome)
    requires Ec2Waiting(w0, w, r) && (a == WaitRunning || a == DescribeInstance || a == Put)
    ensures
      var v := Perform(cfg, Ec2, a, w, r, o);
      Ec2Waiting(w0, v.world, r)
      && (v.Go? ==> Ec2Waiting(w0, v.world, v.local) && v.local == r.(ec2PublicIp := v.local.ec2PublicIp))
  {
    hide With, Without, PurgeSome, AlreadyDone, AsksCloud;
  }

  lemma {:induction false} Ec2Polling(cfg: Settings, w0: World, w: World, r: Record, pc: nat, script: seq<Outcome>)
    requires 3 <= pc <= |EC2_PROGRAM| && Ec2Waiting(w0, w, r)
    ensures Ec2Waiting(w0, Carry(cfg, Ec2, w, r, EC2_PROGRAM, pc, script).0, r)
    decreases |EC2_PROGRAM| - pc
  {
    hide Carry, Perform, Ec2Waiting;
    if pc < |EC2_PROGRAM| && pc + 1 < |script| {
      var v := Perform(cfg, Ec2, EC2_PROGRAM[pc], w, r, script[pc + 1]);
      Ec2PollingStep(cfg, w0, w, r, EC2_PROGRAM[pc], script[pc + 1]);
      CarryIs(cfg, Ec2, w, r, EC2_PROGRAM, pc, script);
      if v.Go? {
        Ec2Polling(cfg, w0, v.world, v.local, pc + 1, script);
        SameEc2Waiting(w0, Carry(cfg, Ec2, v.world, v.local, EC2_PROGRAM, pc + 1, script).0, r, v.local);
      }
    } else {
      CarryOver(cfg, Ec2, w, r, EC2_PROGRAM, pc, script);
    }
  }

  lemma SameEc2Waiting(w0: World, w: World, r: Record, s: Record)
    requires Ec2Waiting(w0, w, s) && s == r.(ec2PublicIp := s.ec2PublicIp)
    ensures Ec2Waiting(w0, w, r)
  {
  }

  lemma RunInstanceIs(cfg: Settings, w: World, r: Record, o: Outcome)
    requires o.Ok? || o.Lost?
    ensures
      var I := InstanceKey(o.value);
      var w' := w.(ledger := w.ledger[I := InstanceItem(r.publicSubnetId, r.securityGroupId, Pending)],
                issued := w.issued[I := Short(r.id)]);
      Perform(cfg, Ec2, RunInstance, w, r, o)
      == if o.value != "" && I !in w.ledger && I !in w.issued && SubnetKey(r.publicSubnetId) in w.ledger
            && GroupKey(r.securityGroupId) in w.ledger
      then (if o.Ok? then Go(w', r.(ec2InstanceId := o.value)) else Stop(w', Refused))
      else Stop(w, Refused)
  {
    hide With, Without, Short;
  }

  /** What one ec2 attempt from RunInstances on leaves, whether it is a first attempt or a retry. */
  ghost predicate AfterEc2Attempt(w: World, w': World, id: EnvId, script: seq<Outcome>)
    requires id in w.store
  {
    if !InstanceCreated(w, w.store[id], script) then w' == w
    else
      var J := InstanceKey(script[2].value);
      && J in w'.ledger && w'.ledger[J].InstanceItem? && w'.ledger == w.ledger[J := w'.ledger[J]]
      && w'.ledger[J].group == w.store[id].securityGroupId && w'.issued == w.issued[J := Short(w.store[id].id)]
      && id in w'.store && w'.store == w.store[id := w'.store[id]]
      && (if InstanceSaved(script)
          then w'.store[id].ec2InstanceId == script[2].value && AgreeOutside(Ec2, w.store[id], w'.store[id])
          else w'.store == w.store)
  }

  lemma Ec2Attempt(cfg: Settings, w: World, r: Record, script: seq<Outcome>)
    requires r.id in w.store && w.store[r.id] == r && |script| > 1
    ensures AfterEc2Attempt(w, Carry(cfg, Ec2, w, r, EC2_PROGRAM, 1, script).0, r.id, script)
  {
    hide Carry, Perform, Ec2Waiting, Short;
    if |script| == 2 {
      CarryOver(cfg, Ec2, w, r, EC2_PROGRAM, 1, script);
    } else {
      CarryIs(cfg, Ec2, w, r, EC2_PROGRAM, 1, script);
      if script[2].Ok? || script[2].Lost? {
        RunInstanceIs(cfg, w, r, script[2]);
        if InstanceCreated(w, r, script) { Ec2AttemptTail(cfg, w, r, script); }
      } else {
        RunInstanceFails(cfg, w, r, script[2]);
      }
    }
  }

  lemma RunInstanceFails(cfg: Settings, w: World, r: Record, o: Outcome)
    requires !o.Ok? && !o.Lost?
    ensures Perform(cfg, Ec2, RunInstance, w, r, o) == Stop(w, Refused)
  {
  }

  lemma Ec2AttemptTail(cfg: Settings, w: World, r: Record, script: seq<Outcome>)
    requires r.id in w.store && w.store[r.id] == r && InstanceCreated(w, r, script)
    ensures
      var J := InstanceKey(script[2].value);
      var w1 := w.(ledger := w.ledger[J := InstanceItem(r.publicSubnetId, r.securityGroupId, Pending)],
                issued := w.issued[J := Short(r.id)]);
      var r1 := r.(ec2InstanceId := script[2].value);
      && (script[2].Lost? ==> AfterEc2Attempt(w, w1, r.id, script))
      && (script[2].Ok? ==> AfterEc2Attempt(w, Carry(cfg, Ec2, w1, r1, EC2_PROGRAM, 2, script).0, r.id, script))
  {
    hide Carry, Perform, Short;
    var J := InstanceKey(script[2].value);
    var w1 := w.(ledger := w.ledger[J := InstanceItem(r.publicSubnetId, r.securityGroupId, Pending)],
    issued := w.issued[J := Short(r.id)]);
    var r1 := r.(ec2InstanceId := script[2].value);
    assert w.store == w.store[r.id := r];
    if |script| == 3 {
      CarryOver(cfg, Ec2, w1, r1, EC2_PROGRAM, 2, script);
    } else {
      CarryIs(cfg, Ec2, w1, r1, EC2_PROGRAM, 2, script);
      PutIs(cfg, Ec2, w1, r1, script[3]);
      if script[3].Ok? {
        var w2 := w1.(store := w1.store[r.id := r1]);
        Ec2Polling(cfg, w2, w2, r1, 3, script);
      }
    }
  }

  /** Save before polling for ec2, first attempt: the launched instance is recorded exactly when the attempt got
      its first Put applied, and whatever happens later keeps it recorded. */
  lemma Ec2SavedBeforePolling(cfg: Settings, w: World, id: EnvId, script: seq<Outcome>)
    requires Real(w, id) && w.store[id].ec2InstanceId == ""
    ensures
      if |script| > 0 && script[0].Ok? then AfterEc2Attempt(w, Serve(cfg, w, id, Ec2, Forward, script).0, id, script)
      else Serve(cfg, w, id, Ec2, Forward, script).0 == w
  {
    hide Carry, AfterEc2Attempt, Perform;
    var r := w.store[id];
    if |script| > 0 && script[0].Ok? {
      assert Serve(cfg, w, id, Ec2, Forward, script) == Carry(cfg, Ec2, w, r, EC2_PROGRAM, 0, script);
      if |script| > 1 {
        CarryIs(cfg, Ec2, w, r, EC2_PROGRAM, 0, script);
        Ec2Unrecorded(cfg, w, r, script[1]);
        Ec2Attempt(cfg, w, r, script);
      } else {
        CarryOver(cfg, Ec2, w, r, EC2_PROGRAM, 0, script);
        NothingLaunched(w, id, script);
      }
    }
  }

  lemma Ec2Unrecorded(cfg: Settings, w: World, r: Record, o: Outcome)
    requires r.ec2InstanceId == ""
    ensures Perform(cfg, Ec2, Check, w, r, o) == Go(w, r)
  {
  }

  lemma NothingLaunched(w: World, id: EnvId, script: seq<Outcome>)
    requires id in w.store && |script| <= 2
    ensures AfterEc2Attempt(w, w, id, script)
  {
  }

  /** An acknowledged ec2 compensation, of a record that names an instance, has terminated it and emptied the group. */
  lemma Ec2Undone(cfg: Settings, w: World, id: EnvId, script: seq<Outcome>)
    requires Real(w, id) && w.store[id].ec2InstanceId != "" && Serve(cfg, w, id, Ec2, Compensate, script).1 == Acked
    ensures
      Serve(cfg, w, id, Ec2, Compensate, script).0
      == w.(store := w.store[id := Blank(Ec2, w.store[id])],
      ledger := w.ledger - {InstanceKey(w.store[id].ec2InstanceId)})
  {
    hide Serve, Carry, Perform, Without, Blank;
    var r := w.store[id];
    var J := InstanceKey(r.ec2InstanceId);
    CompensateStarts(cfg, w, id, Ec2, EC2_UNDO, script);
    CarryStep(cfg, Ec2, w, r, EC2_UNDO, 0, script);
    TerminateDone(cfg, w, r, script[1]);
    var w1 := Perform(cfg, Ec2, Terminate, w, r, script[1]).world;
    CarryStep(cfg, Ec2, w1, r, EC2_UNDO, 1, script);
    InstanceGone(cfg, w1, r, script[2]);
    var w2 := w.(ledger := w.ledger - {J});
    assert w1.ledger - {J} == w2.ledger;
    WipedAndSaved(cfg, Ec2, w2, r, EC2_UNDO, 2, script);
  }

  lemma TerminateDone(cfg: Settings, w: World, r: Record, o: Outcome)
    requires Perform(cfg, Ec2, Terminate, w, r, o).Go?
    ensures
      var J := InstanceKey(r.ec2InstanceId);
      && J in w.ledger && w.ledger[J].InstanceItem?
      && Perform(cfg, Ec2, Terminate, w, r, o)
         == Go(w.(ledger := w.ledger[J := w.ledger[J].(instanceState := ShuttingDown)]), r)
  {
    hide With, Without;
  }

  lemma InstanceGone(cfg: Settings, w: World, r: Record, o: Outcome)
    requires Perform(cfg, Ec2, WaitTerminated, w, r, o).Go?
    ensures Perform(cfg, Ec2, WaitTerminated, w, r, o) == Go(w.(ledger := w.ledger - {InstanceKey(r.ec2InstanceId)}), r)
  {
    hide With, Without;
  }

  /** The same there and back for ec2; the cloud only remembers that the identifier was issued. */
  lemma SavedInstanceIsReclaimed(cfg: Settings, w: World, id: EnvId, script: seq<Outcome>, undo: seq<Outcome>)
    requires Real(w, id) && w.store[id].ec2InstanceId == ""
    requires |script| > 0 && script[0].Ok? && InstanceCreated(w, w.store[id], script) && InstanceSaved(script)
    requires Serve(cfg, Serve(cfg, w, id, Ec2, Forward, script).0, id, Ec2, Compensate, undo).1 == Acked
    ensures
      Serve(cfg, Serve(cfg, w, id, Ec2, Forward, script).0, id, Ec2, Compensate, undo).0
      == w.(store := w.store[id := Blank(Ec2, w.store[id])],
      issued := w.issued[InstanceKey(script[2].value) := Short(id)])
  {
    hide Serve, InstanceSaved, Short;
    var w1 := Serve(cfg, w, id, Ec2, Forward, script).0;
    Ec2SavedBeforePolling(cfg, w, id, script);
    KeepsMode(Ec2, w.store[id], w1.store[id]);
    Ec2Undone(cfg, w1, id, undo);
    assert w1.ledger - {InstanceKey(script[2].value)} == w.ledger;
  }
}
