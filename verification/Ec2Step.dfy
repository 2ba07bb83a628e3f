/** internal/steps/ec2.go as it runs. */
module Ec2Step {
  import opened Records
  import opened Ledgers
  import opened Handlers
  import opened Stores
  import opened Services
  import Cascade

  method Execute(cfg: Settings, env: Environment, store: Store, cloud: Cloud, script: seq<Outcome>,
                 now: nat) returns (ok: bool)
    requires store.Valid() && |script| >= 11
    modifies env, store, cloud
    ensures store.Valid()
    ensures Ends(ExecuteCourse(cfg, Ec2, old(Sight(store, cloud)), old(env.Value()), script), Sight(store, cloud), ok)
  {
    hide On, Ends, Sight, With, Intent, Updated, Skips;
    ghost var c := ExecuteCourse(cfg, Ec2, Sight(store, cloud), env.Value(), script);
    if env.dryRun {
      FillFields(cfg, env);
      LocalStep(c, 1, Sight(store, cloud), old(env.Value()));
      ok := Finish(c, env, store, cloud, now, script[3]);
      return;
    }
    ok := Launch(c, env, store, cloud, script[2]);
    if !ok { return; }
    // Saved before polling.
    ok := Save(c, 2, env, store, cloud, now, script[3]);
    if !ok { return; }
    ok := AwaitAddress(c, env, store, cloud, script[4], script[5]);
    if !ok { return; }
    ok := Finish(c, env, store, cloud, now, script[6]);
  }

  method FillFields(cfg: Settings, env: Environment)
    modifies env
    ensures env.Value() == With(cfg, Ec2, old(env.Value()))
  {
    env.ec2InstanceId := "i-dryrun-" + Short(env.id);
    env.ec2PublicIp := "1.2.3.4";
  }

  method ClearFields(env: Environment)
    modifies env
    ensures env.Value() == Records.Without(Ec2, old(env.Value()))
  {
    env.ec2InstanceId := "";
    env.ec2PublicIp := "";
  }

  method Launch(ghost c: Course, env: Environment, store: Store, cloud: Cloud, run: Outcome) returns (ok: bool)
    requires c.prog == EC2_PROGRAM && On(c, 1, Sight(store, cloud), env.Value()) && c.script[2] == run
    modifies env, cloud
    ensures if ok then On(c, 2, Sight(store, cloud), env.Value()) else Ends(c, Sight(store, cloud), false)
  {
    hide On, Ends, Sight, Short;
    ok := Ask(c, 1, RunInstance, env, store, cloud,
              Create(InstanceKey(Value(run)), InstanceItem(env.publicSubnetId, env.securityGroupId, Pending)), run);
    if !ok { return; }
    env.ec2InstanceId := Value(run);
  }

  method AwaitAddress(ghost c: Course, env: Environment, store: Store, cloud: Cloud, wait: Outcome,
                      describe: Outcome) returns (ok: bool)
    requires c.prog == EC2_PROGRAM && On(c, 3, Sight(store, cloud), env.Value()) && c.script[4] == wait
             && c.script[5] == describe
    modifies env, cloud
    ensures if ok then On(c, 5, Sight(store, cloud), env.Value()) else Ends(c, Sight(store, cloud), false)
  {
    hide On, Ends, Sight;
    ok := Ask(c, 3, WaitRunning, env, store, cloud,
              ChangeInstance(cloud.ledger, env.ec2InstanceId, InstanceState.Running), wait);
    if !ok { return; }
    ok := ReadAddress(c, env, store, cloud, describe);
  }

  method ReadAddress(ghost c: Course, env: Environment, store: Store, cloud: Cloud,
                     describe: Outcome) returns (ok: bool)
    requires c.prog == EC2_PROGRAM && On(c, 4, Sight(store, cloud), env.Value()) && c.script[5] == describe
    modifies env, cloud
    ensures if ok then On(c, 5, Sight(store, cloud), env.Value()) else Ends(c, Sight(store, cloud), false)
  {
    hide On, Ends, Sight;
    var found := InstanceKey(env.ec2InstanceId) in cloud.ledger;
    ok := Ask(c, 4, DescribeInstance, env, store, cloud, Query, describe);
    if !ok { return; }
    if found { env.ec2PublicIp := Value(describe); }
  }

  /** Clears the group and stores the record. */
  method Forget(ghost c: Course, ghost pc: nat, env: Environment, store: Store, cloud: Cloud, now: nat,
                o: Outcome) returns (ok: bool)
    requires store.Valid() && c.step == Ec2 && |c.prog| == pc + 2 && c.prog[pc] == Wipe && c.prog[pc + 1] == Put
    requires On(c, pc, Sight(store, cloud), env.Value()) && o == c.script[pc + 2]
    modifies env, store`rows
    ensures store.Valid()
    ensures Ends(c, Sight(store, cloud), ok)
  {
    hide On, Ends, Sight, Records.Without;
    ClearFields(env);
    LocalStep(c, pc, Sight(store, cloud), old(env.Value()));
    ok := Finish(c, env, store, cloud, now, o);
  }

  method Compensate(cfg: Settings, env: Environment, store: Store, cloud: Cloud, script: seq<Outcome>,
                    now: nat) returns (ok: bool)
    requires store.Valid() && |script| >= 11
    modifies env, store, cloud
    ensures store.Valid()
    ensures Ends(CompensateCourse(cfg, Ec2, old(Sight(store, cloud)), old(env.Value()), script), Sight(store, cloud),
                 ok)
  {
    hide On, Ends, Sight, Records.Without, Intent, Updated, Skips;
    ghost var c := CompensateCourse(cfg, Ec2, Sight(store, cloud), env.Value(), script);
    if env.dryRun {
      ok := Forget(c, 0, env, store, cloud, now, script[2]);
      return;
    }
    if env.ec2InstanceId == "" {
      EndStep(c, Sight(store, cloud), env.Value());
      return true;
    }
    ok := TerminateInstance(c, env, store, cloud, script[1], script[2]);
    if !ok { return; }
    ok := Forget(c, 2, env, store, cloud, now, script[4]);
  }

  method TerminateInstance(ghost c: Course, env: Environment, store: Store, cloud: Cloud, terminate: Outcome,
                           wait: Outcome) returns (ok: bool)
    requires c.prog == EC2_UNDO && On(c, 0, Sight(store, cloud), env.Value()) && c.script[1] == terminate
             && c.script[2] == wait
    modifies cloud
    ensures if ok then On(c, 2, Sight(store, cloud), env.Value()) else Ends(c, Sight(store, cloud), false)
  {
    hide On, Ends, Sight;
    ok := Ask(c, 0, Terminate, env, store, cloud, ChangeInstance(cloud.ledger, env.ec2InstanceId, ShuttingDown),
              terminate);
    if !ok { return; }
    var k := InstanceKey(env.ec2InstanceId);
    var gone := if k in cloud.ledger && cloud.ledger[k].InstanceItem? && cloud.ledger[k].instanceState != ShuttingDown
    then Reject else Erase(k);
    ok := Ask(c, 1, WaitTerminated, env, store, cloud, gone, wait);
  }

  /** Asks AWS, unless in dry-run or nothing is recorded; only a running instance counts as done. */
  method IsAlreadyDone(env: Environment, cloud: Cloud, describe: Outcome) returns (done: bool, ok: bool)
    ensures ok <==> env.dryRun || env.ec2InstanceId == "" || describe.Ok?
    ensures ok == !(AsksCloud(Ec2, env.Value()) && !describe.Ok?)
    ensures ok ==> done == AlreadyDone(Ec2, env.Value(), cloud.ledger)
    ensures ok ==> (done <==> env.ec2InstanceId != ""
                              && (env.dryRun || !Cascade.InstanceMissing(env.Value(), cloud.ledger)))
  {
    if env.dryRun { return env.ec2InstanceId != "", true; }
    if env.ec2InstanceId == "" { return false, true; }
    if !describe.Ok? { return false, false; }
    var k := InstanceKey(env.ec2InstanceId);
    if k !in cloud.ledger || !cloud.ledger[k].InstanceItem? { return false, true; }
    return cloud.ledger[k].instanceState == InstanceState.Running, true;
  }
}
