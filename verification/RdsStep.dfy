/** internal/steps/rds.go as it runs. */
module RdsStep {
  import opened Records
  import opened Ledgers
  import opened Handlers
  import opened Stores
  import opened Services
  import Cascade

  method Execute(cfg: Settings, env: Environment, store: Store, cloud: Cloud, script: seq<Outcome>,
                 now: nat) returns (ok: bool)
    requires store.Valid() && |script| >= 11
    modifies env, store, cloud
    ensures store.Valid()
    ensures Ends(ExecuteCourse(cfg, Rds, old(Sight(store, cloud)), old(env.Value()), script), Sight(store, cloud), ok)
  {
    hide On, Ends, Sight, ForwardProgram, CourseOf;
    Programs(cfg, env.Value());
    ghost var c := ExecuteCourse(cfg, Rds, Sight(store, cloud), env.Value(), script);
    if env.dryRun {
      ok := Pretend(cfg, c, env, store, cloud, now, script[3]);
      return;
    }
    ok := CreateInstance(c, env, store, cloud, script[2], script[3]);
    if !ok { return; }
    // Saved before polling: from here on the record names the instance.
    ok := Save(c, 3, env, store, cloud, now, script[4]);
    if !ok { return; }
    ok := AwaitEndpoint(c, env, store, cloud, script[5], script[6]);
    if !ok { return; }
    ok := Finish(c, env, store, cloud, now, script[7]);
  }

  lemma Programs(cfg: Settings, r: Record)
    ensures ForwardProgram(cfg, Rds, r) == if r.dryRun then [Check, Fill, Put] else RDS_PROGRAM
  {
  }

  /** A dry-run fills in the group and stores the record. */
  method Pretend(cfg: Settings, ghost c: Course, env: Environment, store: Store, cloud: Cloud, now: nat,
                 o: Outcome) returns (ok: bool)
    requires store.Valid() && c.cfg == cfg && c.step == Rds && c.prog == [Check, Fill, Put]
    requires On(c, 1, Sight(store, cloud), env.Value()) && o == c.script[3]
    modifies env, store`rows
    ensures store.Valid()
    ensures Ends(c, Sight(store, cloud), ok)
  {
    hide On, Ends, Sight, With;
    FillFields(cfg, env);
    LocalStep(c, 1, Sight(store, cloud), old(env.Value()));
    ok := Finish(c, env, store, cloud, now, o);
  }

  method FillFields(cfg: Settings, env: Environment)
    modifies env
    ensures env.Value() == With(cfg, Rds, old(env.Value()))
  {
    env.rdsInstanceId := "db-dryrun-" + Short(env.id);
    env.rdsEndpoint := "db-dryrun-" + Short(env.id) + ".us-east-1.rds.amazonaws.com:5432";
    env.rdsPassword := "dryrunpassword";
  }

  method ClearFields(env: Environment)
    modifies env
    ensures env.Value() == Records.Without(Rds, old(env.Value()))
  {
    env.rdsInstanceId := "";
    env.rdsEndpoint := "";
    env.rdsPassword := "";
  }

  method CreateInstance(ghost c: Course, env: Environment, store: Store, cloud: Cloud, password: Outcome,
                        create: Outcome) returns (ok: bool)
    requires c.prog == RDS_PROGRAM && On(c, 1, Sight(store, cloud), env.Value()) && c.script[2] == password
             && c.script[3] == create
    modifies env, cloud
    ensures if ok then On(c, 3, Sight(store, cloud), env.Value()) else Ends(c, Sight(store, cloud), false)
  {
    hide On, Ends, Sight, DbName;
    ok := NameInstance(c, env, store, cloud, password);
    if !ok { return; }
    ok := Ask(c, 2, CreateDb, env, store, cloud,
              Create(DbKey(env.rdsInstanceId), DbItem(env.securityGroupId, env.rdsPassword, Creating)), create);
  }

  /** The password is drawn and the identifier fixed, in memory only. */
  method NameInstance(ghost c: Course, env: Environment, store: Store, cloud: Cloud,
                      password: Outcome) returns (ok: bool)
    requires c.prog == RDS_PROGRAM && On(c, 1, Sight(store, cloud), env.Value()) && c.script[2] == password
    modifies env, cloud
    ensures if ok then On(c, 2, Sight(store, cloud), env.Value()) else Ends(c, Sight(store, cloud), false)
  {
    hide On, Ends, Sight, DbName, Intent, Updated, Skips;
    NameRequest(c.cfg, env.Value(), cloud.ledger, Value(password));
    ok := Ask(c, 1, NameDb, env, store, cloud, Query, password);
    if !ok { return; }
    env.rdsPassword := Value(password);
    env.rdsInstanceId := DbName(env.id);
  }

  lemma NameRequest(cfg: Settings, r: Record, l: Ledger, v: string)
    ensures !Skips(NameDb, r) && Intent(cfg, NameDb, r, l, v) == Query
    ensures Updated(cfg, NameDb, r, l, v) == r.(rdsPassword := v, rdsInstanceId := DbName(r.id))
  {
    hide DbName;
  }

  method AwaitEndpoint(ghost c: Course, env: Environment, store: Store, cloud: Cloud, wait: Outcome,
                       describe: Outcome) returns (ok: bool)
    requires c.prog == RDS_PROGRAM && On(c, 4, Sight(store, cloud), env.Value()) && c.script[5] == wait
             && c.script[6] == describe
    modifies env, cloud
    ensures if ok then On(c, 6, Sight(store, cloud), env.Value()) else Ends(c, Sight(store, cloud), false)
  {
    hide On, Ends, Sight;
    ok := Ask(c, 4, WaitDbAvailable, env, store, cloud, ChangeDb(cloud.ledger, env.rdsInstanceId, Available), wait);
    if !ok { return; }
    ok := ReadEndpoint(c, env, store, cloud, describe);
  }

  method ReadEndpoint(ghost c: Course, env: Environment, store: Store, cloud: Cloud,
                      describe: Outcome) returns (ok: bool)
    requires c.prog == RDS_PROGRAM && On(c, 5, Sight(store, cloud), env.Value()) && c.script[6] == describe
    modifies env, cloud
    ensures if ok then On(c, 6, Sight(store, cloud), env.Value()) else Ends(c, Sight(store, cloud), false)
  {
    hide On, Ends, Sight;
    var found := DbKey(env.rdsInstanceId) in cloud.ledger;
    ok := Ask(c, 5, DescribeDb, env, store, cloud, Present(cloud.ledger, DbKey(env.rdsInstanceId)), describe);
    if !ok { return; }
    if found && Value(describe) != "" { env.rdsEndpoint := Value(describe); }
  }

  /** Clears the group and stores the record. */
  method Forget(ghost c: Course, ghost pc: nat, env: Environment, store: Store, cloud: Cloud, now: nat,
                o: Outcome) returns (ok: bool)
    requires store.Valid() && c.step == Rds && |c.prog| == pc + 2 && c.prog[pc] == Wipe && c.prog[pc + 1] == Put
    requires On(c, pc, Sight(store, cloud), env.Value()) && o == c.script[pc + 2]
    modifies env, store`rows
    ensures store.Valid()
    ensures Ends(c, Sight(store, cloud), ok)
  {
    hide On, Ends, Sight, Records.Without;
    ClearFields(env);
    LocalStep(c, pc, Sight(store, cloud), old(env.Value()));
    ok := Finish(c, env, store, cloud, now, o);
  }

  method Compensate(cfg: Settings, env: Environment, store: Store, cloud: Cloud, script: seq<Outcome>,
                    now: nat) returns (ok: bool)
    requires store.Valid() && |script| >= 11
    modifies env, store, cloud
    ensures store.Valid()
    ensures Ends(CompensateCourse(cfg, Rds, old(Sight(store, cloud)), old(env.Value()), script), Sight(store, cloud),
                 ok)
  {
    hide On, Ends, Sight, Records.Without, Intent, Updated, Skips;
    ghost var c := CompensateCourse(cfg, Rds, Sight(store, cloud), env.Value(), script);
    if env.dryRun {
      ok := Forget(c, 0, env, store, cloud, now, script[2]);
      return;
    }
    if env.rdsInstanceId == "" {
      EndStep(c, Sight(store, cloud), env.Value());
      return true;
    }
    ok := DeleteInstance(c, env, store, cloud, script[1], script[2]);
    if !ok { return; }
    ok := Forget(c, 2, env, store, cloud, now, script[4]);
  }

  method DeleteInstance(ghost c: Course, env: Environment, store: Store, cloud: Cloud, delete: Outcome,
                        wait: Outcome) returns (ok: bool)
    requires c.prog == RDS_UNDO && On(c, 0, Sight(store, cloud), env.Value()) && c.script[1] == delete
             && c.script[2] == wait
    modifies cloud
    ensures if ok then On(c, 2, Sight(store, cloud), env.Value()) else Ends(c, Sight(store, cloud), false)
  {
    hide On, Ends, Sight;
    ok := Ask(c, 0, DeleteDb, env, store, cloud, ChangeDb(cloud.ledger, env.rdsInstanceId, Deleting), delete);
    if !ok { return; }
    ok := AwaitDeletion(c, env, store, cloud, wait);
  }

  method AwaitDeletion(ghost c: Course, env: Environment, store: Store, cloud: Cloud, wait: Outcome) returns (ok: bool)
    requires c.prog == RDS_UNDO && On(c, 1, Sight(store, cloud), env.Value()) && c.script[2] == wait
    modifies cloud
    ensures if ok then On(c, 2, Sight(store, cloud), env.Value()) else Ends(c, Sight(store, cloud), false)
  {
    hide On, Ends, Sight;
    var k := DbKey(env.rdsInstanceId);
    var gone := if k in cloud.ledger && cloud.ledger[k].DbItem? && cloud.ledger[k].dbState != Deleting then Reject
    else Erase(k);
    ok := Ask(c, 1, WaitDbDeleted, env, store, cloud, gone, wait);
  }

  /** Asks AWS, unless in dry-run or nothing is recorded; only an available instance counts as done. */
  method IsAlreadyDone(env: Environment, cloud: Cloud, describe: Outcome) returns (done: bool, ok: bool)
    ensures ok <==> env.dryRun || env.rdsInstanceId == "" || describe.Ok?
    ensures ok == !(AsksCloud(Rds, env.Value()) && !describe.Ok?)
    ensures ok ==> done == AlreadyDone(Rds, env.Value(), cloud.ledger)
    ensures ok ==> (done <==> env.rdsInstanceId != "" && (env.dryRun || !Cascade.DbMissing(env.Value(), cloud.ledger)))
  {
    if env.dryRun { return env.rdsInstanceId != "", true; }
    if env.rdsInstanceId == "" { return false, true; }
    if !describe.Ok? { return false, false; }
    var k := DbKey(env.rdsInstanceId);
    if k !in cloud.ledger || !cloud.ledger[k].DbItem? { return false, true; }
    return cloud.ledger[k].dbState == Available, true;
  }
}
