/** Real mode without faults: when nothing stands in the way, every step is acknowledged, so that the reverse cascade
    is about runs that exist. */
module Progress {
  import opened Records
  import opened Ledgers
  import opened Handlers
  import opened Cascade
  import opened Unwind

  lemma CheckGoes(cfg: Settings, step: Step, w: World, r: Record, o: Outcome)
    requires o.Ok? && !Marked(step, r)
    ensures Perform(cfg, step, Check, w, r, o) == Go(w, r)
  {
    hide With, Without;
  }

  lemma OuterIsAttempt(cfg: Settings, step: Step, a: Action, w: World, r: Record, o: Outcome)
    requires !Inner(a) && a != PurgeVersions && a != NameEntries && !Skips(a, r)
    ensures Perform(cfg, step, a, w, r, o) == Attempt(cfg, a, w, r, o)
  {
    hide Attempt, Skips, With, Without;
  }

  /** A create of a new resource whose dependencies exist. */
  lemma CreateGoes(cfg: Settings, step: Step, a: Action, w: World, r: Record, o: Outcome, key: Key, item: Item)
    requires o.Ok? && !Inner(a) && a != PurgeVersions && a != NameEntries && !Skips(a, r)
    requires Intent(cfg, a, r, w.ledger, o.value) == Create(key, item)
    requires KeyName(key) != "" && key !in w.ledger && (CloudNamed(key) ==> key !in w.issued)
             && Uses(item) <= w.ledger.Keys
    ensures
      var v := Perform(cfg, step, a, w, r, o);
      && v.Go? && v.local == Updated(cfg, a, r, w.ledger, o.value)
      && v.world.store == w.store && v.world.ledger == w.ledger[key := item]
      && (forall k :: k in v.world.issued <==> k in w.issued || (k == key && CloudNamed(key)))
  {
    hide Perform, Intent, Updated, Uses, Skips, Short;
    OuterIsAttempt(cfg, step, a, w, r, o);
  }

  /** A request about a resource that is there. */
  lemma QueryGoes(cfg: Settings, step: Step, a: Action, w: World, r: Record, o: Outcome)
    requires o.Ok? && !Inner(a) && a != PurgeVersions && a != NameEntries && !Skips(a, r)
    requires Intent(cfg, a, r, w.ledger, o.value) == Query
    ensures Perform(cfg, step, a, w, r, o) == Go(w, Updated(cfg, a, r, w.ledger, o.value))
  {
    hide Perform, Intent, Updated, Skips, Short;
    OuterIsAttempt(cfg, step, a, w, r, o);
  }

  lemma ChangeGoes(cfg: Settings, step: Step, a: Action, w: World, r: Record, o: Outcome, key: Key, item: Item)
    requires o.Ok? && !Inner(a) && a != PurgeVersions && a != NameEntries && !Skips(a, r)
    requires Intent(cfg, a, r, w.ledger, o.value) in {Change(key, item), Overwrite(key, item)}
             && key in w.ledger.Keys + {key}
    requires Intent(cfg, a, r, w.ledger, o.value).Change? ==> key in w.ledger
    ensures Perform(cfg, step, a, w, r, o)
         == Go(w.(ledger := w.ledger[key := item]), Updated(cfg, a, r, w.ledger, o.value))
  {
    hide Perform, Intent, Updated, Skips, Short;
    OuterIsAttempt(cfg, step, a, w, r, o);
  }

  /** The first action of every forward program. */
  lemma Starts(cfg: Settings, w: World, id: EnvId, step: Step, prog: seq<Action>, script: seq<Outcome>)
    requires Real(w, id) && Calm(script) && !Marked(step, w.store[id])
    requires ForwardProgram(cfg, step, w.store[id]) == prog && 1 < |prog| <= 9 && prog[0] == Check
    ensures Serve(cfg, w, id, step, Forward, script) == Carry(cfg, step, w, w.store[id], prog, 1, script)
  {
    hide Carry, Perform, ForwardProgram;
    CheckGoes(cfg, step, w, w.store[id], script[1]);
    CalmStep(cfg, step, w, w.store[id], prog, 0, script);
  }

  /** The last action of most forward programs. */
  lemma Finishes(cfg: Settings, step: Step, w: World, r: Record, prog: seq<Action>, script: seq<Outcome>)
    requires Calm(script) && 0 < |prog| <= 9 && prog[|prog| - 1] == Put
    ensures Carry(cfg, step, w, r, prog, |prog| - 1, script).1 == Acked
  {
    hide Carry, Perform;
    PutGoes(cfg, step, w, r, script[|prog|]);
    CalmStep(cfg, step, w, r, prog, |prog| - 1, script);
    CalmEnd(cfg, step, w.(store := w.store[r.id := r]), r, prog, script);
  }

  /** The identifiers a vpc Execute is handed are new and the subnets' differ. */
  predicate VpcIdsNew(w: World, script: seq<Outcome>) {
    && Calm(script) && script[5].value != script[6].value
    && AllNew(w, {VpcKey(script[2].value), SubnetKey(script[5].value), SubnetKey(script[6].value),
                  GroupKey(script[7].value)})
  }

  lemma VpcProgress(cfg: Settings, w: World, id: EnvId, script: seq<Outcome>)
    requires Real(w, id) && w.store[id].vpcId == "" && VpcIdsNew(w, script)
    ensures Serve(cfg, w, id, Vpc, Forward, script).1 == Acked
  {
    hide Serve, Carry, Perform, Short;
    var r := w.store[id];
    var prog := VPC_PROGRAM;
    Starts(cfg, w, id, Vpc, prog, script);
    CreateGoes(cfg, Vpc, CreateVpc, w, r, script[2], VpcKey(script[2].value), VpcItem("10.0.0.0/16", false));
    var v1 := Perform(cfg, Vpc, CreateVpc, w, r, script[2]);
    CalmStep(cfg, Vpc, w, r, prog, 1, script);
    VpcProgressMiddle(cfg, v1.world, v1.local, script);
    var V := VpcKey(script[2].value);
    VpcProgressTail(cfg, v1.world.(ledger := v1.world.ledger[V := v1.world.ledger[V].(dnsHostnames := true)]), v1.local,
                    script);
  }

  lemma VpcProgressMiddle(cfg: Settings, w: World, r: Record, script: seq<Outcome>)
    requires Calm(script) && VpcKey(r.vpcId) in w.ledger && w.ledger[VpcKey(r.vpcId)].VpcItem?
    ensures
      var V := VpcKey(r.vpcId);
      var w' := w.(ledger := w.ledger[V := w.ledger[V].(dnsHostnames := true)]);
      Carry(cfg, Vpc, w, r, VPC_PROGRAM, 2, script) == Carry(cfg, Vpc, w', r, VPC_PROGRAM, 4, script)
  {
    hide Carry, Perform, Short;
    var prog := VPC_PROGRAM;
    var V := VpcKey(r.vpcId);
    ChangeGoes(cfg, Vpc, EnableDns, w, r, script[3], V, w.ledger[V].(dnsHostnames := true));
    CalmStep(cfg, Vpc, w, r, prog, 2, script);
    var w2 := w.(ledger := w.ledger[V := w.ledger[V].(dnsHostnames := true)]);
    QueryGoes(cfg, Vpc, WaitVpc, w2, r, script[4]);
    CalmStep(cfg, Vpc, w2, r, prog, 3, script);
  }

  lemma VpcProgressTail(cfg: Settings, w: World, r: Record, script: seq<Outcome>)
    requires Calm(script) && VpcKey(r.vpcId) in w.ledger && script[5].value != script[6].value
    requires AllNew(w, {SubnetKey(script[5].value), SubnetKey(script[6].value), GroupKey(script[7].value)})
    ensures Carry(cfg, Vpc, w, r, VPC_PROGRAM, 4, script).1 == Acked
  {
    hide Carry, Perform, Short;
    var prog := VPC_PROGRAM;
    CreateGoes(cfg, Vpc, CreatePublicSubnet, w, r, script[5], SubnetKey(script[5].value),
               SubnetItem(r.vpcId, "10.0.1.0/24"));
    var v4 := Perform(cfg, Vpc, CreatePublicSubnet, w, r, script[5]);
    CalmStep(cfg, Vpc, w, r, prog, 4, script);
    CreateGoes(cfg, Vpc, CreatePrivateSubnet, v4.world, v4.local, script[6], SubnetKey(script[6].value),
               SubnetItem(r.vpcId, "10.0.2.0/24"));
    var v5 := Perform(cfg, Vpc, CreatePrivateSubnet, v4.world, v4.local, script[6]);
    CalmStep(cfg, Vpc, v4.world, v4.local, prog, 5, script);
    VpcProgressEnd(cfg, v5.world, v5.local, script);
  }

  lemma VpcProgressEnd(cfg: Settings, w: World, r: Record, script: seq<Outcome>)
    requires Calm(script) && VpcKey(r.vpcId) in w.ledger && AllNew(w, {GroupKey(script[7].value)})
    ensures Carry(cfg, Vpc, w, r, VPC_PROGRAM, 6, script).1 == Acked
  {
    hide Carry, Perform, Short;
    var prog := VPC_PROGRAM;
    CreateGoes(cfg, Vpc, CreateGroup, w, r, script[7], GroupKey(script[7].value), GroupItem(r.vpcId, Closed));
    var v6 := Perform(cfg, Vpc, CreateGroup, w, r, script[7]);
    CalmStep(cfg, Vpc, w, r, prog, 6, script);
    var G := GroupKey(script[7].value);
    var item := v6.world.ledger[G].(ingress := Open(5432, "10.0.0.0/16"));
    ChangeGoes(cfg, Vpc, AuthorizeIngress, v6.world, v6.local, script[8], G, item);
    CalmStep(cfg, Vpc, v6.world, v6.local, prog, 7, script);
    Finishes(cfg, Vpc, v6.world.(ledger := v6.world.ledger[G := item]), v6.local, prog, script);
  }

  lemma RdsProgress(cfg: Settings, w: World, id: EnvId, script: seq<Outcome>)
    requires Real(w, id) && w.store[id].rdsInstanceId == "" && Calm(script)
    requires DbKey(DbName(id)) !in w.ledger && GroupKey(w.store[id].securityGroupId) in w.ledger
    ensures Serve(cfg, w, id, Rds, Forward, script).1 == Acked
  {
    hide Serve, Carry, Perform, Short;
    var r := w.store[id];
    var prog := RDS_PROGRAM;
    Starts(cfg, w, id, Rds, prog, script);
    QueryGoes(cfg, Rds, NameDb, w, r, script[2]);
    CalmStep(cfg, Rds, w, r, prog, 1, script);
    var r1 := r.(rdsPassword := script[2].value, rdsInstanceId := DbName(id));
    var D := DbKey(DbName(id));
    var item := DbItem(r.securityGroupId, r1.rdsPassword, Creating);
    CreateGoes(cfg, Rds, CreateDb, w, r1, script[3], D, item);
    var v2 := Perform(cfg, Rds, CreateDb, w, r1, script[3]);
    CalmStep(cfg, Rds, w, r1, prog, 2, script);
    PutGoes(cfg, Rds, v2.world, r1, script[4]);
    CalmStep(cfg, Rds, v2.world, r1, prog, 3, script);
    RdsProgressTail(cfg, v2.world.(store := v2.world.store[id := r1]), r1, script);
  }

  lemma RdsProgressTail(cfg: Settings, w: World, r: Record, script: seq<Outcome>)
    requires Calm(script) && DbKey(r.rdsInstanceId) in w.ledger && w.ledger[DbKey(r.rdsInstanceId)].DbItem?
    ensures Carry(cfg, Rds, w, r, RDS_PROGRAM, 4, script).1 == Acked
  {
    hide Carry, Perform, Short;
    var prog := RDS_PROGRAM;
    var D := DbKey(r.rdsInstanceId);
    ChangeGoes(cfg, Rds, WaitDbAvailable, w, r, script[5], D, w.ledger[D].(dbState := Available));
    var w4 := w.(ledger := w.ledger[D := w.ledger[D].(dbState := Available)]);
    CalmStep(cfg, Rds, w, r, prog, 4, script);
    QueryGoes(cfg, Rds, DescribeDb, w4, r, script[6]);
    CalmStep(cfg, Rds, w4, r, prog, 5, script);
    Finishes(cfg, Rds, w4, Updated(cfg, DescribeDb, r, w4.ledger, script[6].value), prog, script);
  }

  lemma Ec2Progress(cfg: Settings, w: World, id: EnvId, script: seq<Outcome>)
    requires Real(w, id) && w.store[id].ec2InstanceId == "" && Calm(script) && AllNew(w, {InstanceKey(script[2].value)})
    requires SubnetKey(w.store[id].publicSubnetId) in w.ledger && GroupKey(w.store[id].securityGroupId) in w.ledger
    ensures Serve(cfg, w, id, Ec2, Forward, script).1 == Acked
  {
    hide Serve, Carry, Perform, Short;
    var r := w.store[id];
    var prog := EC2_PROGRAM;
    Starts(cfg, w, id, Ec2, prog, script);
    var J := InstanceKey(script[2].value);
    CreateGoes(cfg, Ec2, RunInstance, w, r, script[2], J, InstanceItem(r.publicSubnetId, r.securityGroupId, Pending));
    var v1 := Perform(cfg, Ec2, RunInstance, w, r, script[2]);
    CalmStep(cfg, Ec2, w, r, prog, 1, script);
    PutGoes(cfg, Ec2, v1.world, v1.local, script[3]);
    CalmStep(cfg, Ec2, v1.world, v1.local, prog, 2, script);
    Ec2ProgressTail(cfg, v1.world.(store := v1.world.store[id := v1.local]), v1.local, script);
  }

  lemma Ec2ProgressTail(cfg: Settings, w: World, r: Record, script: seq<Outcome>)
    requires Calm(script) && InstanceKey(r.ec2InstanceId) in w.ledger
             && w.ledger[InstanceKey(r.ec2InstanceId)].InstanceItem?
    ensures Carry(cfg, Ec2, w, r, EC2_PROGRAM, 3, script).1 == Acked
  {
    hide Carry, Perform, Short;
    var prog := EC2_PROGRAM;
    var J := InstanceKey(r.ec2InstanceId);
    ChangeGoes(cfg, Ec2, WaitRunning, w, r, script[4], J, w.ledger[J].(instanceState := InstanceState.Running));
    var w3 := w.(ledger := w.ledger[J := w.ledger[J].(instanceState := InstanceState.Running)]);
    CalmStep(cfg, Ec2, w, r, prog, 3, script);
    QueryGoes(cfg, Ec2, DescribeInstance, w3, r, script[5]);
    CalmStep(cfg, Ec2, w3, r, prog, 4, script);
    Finishes(cfg, Ec2, w3, Updated(cfg, DescribeInstance, r, w3.ledger, script[5].value), prog, script);
  }

  lemma S3Progress(cfg: Settings, w: World, id: EnvId, script: seq<Outcome>)
    requires Real(w, id) && w.store[id].s3BucketName == "" && Calm(script) && BucketKey(BucketName(id)) !in w.ledger
    ensures Serve(cfg, w, id, S3, Forward, script).1 == Acked
  {
    hide Serve, Carry, Perform, BucketName;
    var r := w.store[id];
    var prog := S3_PROGRAM;
    Starts(cfg, w, id, S3, prog, script);
    var K := BucketKey(BucketName(id));
    CreateGoes(cfg, S3, CreateBucket, w, r, script[2], K, BucketItem(false, []));
    var v1 := Perform(cfg, S3, CreateBucket, w, r, script[2]);
    CalmStep(cfg, S3, w, r, prog, 1, script);
    S3ProgressTail(cfg, v1.world, v1.local, script);
  }

  lemma S3ProgressTail(cfg: Settings, w: World, r: Record, script: seq<Outcome>)
    requires Calm(script) && BucketKey(r.s3BucketName) in w.ledger
             && w.ledger[BucketKey(r.s3BucketName)] == BucketItem(false, [])
    ensures Carry(cfg, S3, w, r, S3_PROGRAM, 2, script).1 == Acked
  {
    hide Carry, Perform, Pushed;
    var prog := S3_PROGRAM;
    var K := BucketKey(r.s3BucketName);
    ChangeGoes(cfg, S3, EnableVersioning, w, r, script[3], K, BucketItem(true, []));
    CalmStep(cfg, S3, w, r, prog, 2, script);
    S3ProgressEnd(cfg, w.(ledger := w.ledger[K := BucketItem(true, [])]), r, script);
  }

  lemma S3ProgressEnd(cfg: Settings, w: World, r: Record, script: seq<Outcome>)
    requires Calm(script) && BucketKey(r.s3BucketName) in w.ledger && w.ledger[BucketKey(r.s3BucketName)].BucketItem?
    ensures Carry(cfg, S3, w, r, S3_PROGRAM, 3, script).1 == Acked
  {
    hide Carry, Perform, Pushed;
    var prog := S3_PROGRAM;
    var K := BucketKey(r.s3BucketName);
    ChangeGoes(cfg, S3, PutPlaceholder, w, r, script[4], K, Pushed(w.ledger[K], Placeholder));
    CalmStep(cfg, S3, w, r, prog, 3, script);
    Finishes(cfg, S3, w.(ledger := w.ledger[K := Pushed(w.ledger[K], Placeholder)]), r, prog, script);
  }

  lemma IdentityProgress(cfg: Settings, w: World, id: EnvId, script: seq<Outcome>)
    requires Real(w, id) && cfg.connected && w.store[id].svidExchangePolicyName == "" && Calm(script)
             && PolicyKey(PolicyName(id)) !in w.ledger
    ensures Serve(cfg, w, id, Identity, Forward, script).1 == Acked
  {
    hide Serve, Carry, Perform, PolicyName;
    var r := w.store[id];
    var prog := IDENTITY_PROGRAM;
    Starts(cfg, w, id, Identity, prog, script);
    CreateGoes(cfg, Identity, CreatePolicy, w, r, script[2], PolicyKey(PolicyName(id)), PolicyOf(cfg, id));
    var v1 := Perform(cfg, Identity, CreatePolicy, w, r, script[2]);
    CalmStep(cfg, Identity, w, r, prog, 1, script);
    IdentityProgressTail(cfg, v1.world, v1.local, script);
  }

  lemma IdentityProgressTail(cfg: Settings, w: World, r: Record, script: seq<Outcome>)
    requires Calm(script) && PolicyKey(r.svidExchangePolicyName) in w.ledger
    requires exists id: EnvId :: w.ledger[PolicyKey(r.svidExchangePolicyName)] == PolicyOf(cfg, id)
    ensures Carry(cfg, Identity, w, r, IDENTITY_PROGRAM, 2, script).1 == Acked
  {
    hide Carry, Perform, AppSpiffeId, DbProxySpiffeId, Joined;
    var prog := IDENTITY_PROGRAM;
    QueryGoes(cfg, Identity, VerifyPolicy, w, r, script[3]);
    CalmStep(cfg, Identity, w, r, prog, 2, script);
    QueryGoes(cfg, Identity, ReloadPolicies, w, r, script[4]);
    CalmStep(cfg, Identity, w, r, prog, 3, script);
    EntriesNamed(cfg, w, r, script[5]);
    var v4 := Perform(cfg, Identity, NameEntries, w, r, script[5]);
    CalmStep(cfg, Identity, w, r, prog, 4, script);
    Finishes(cfg, Identity, v4.world, v4.local, prog, script);
  }

  lemma ConfigProgress(cfg: Settings, w: World, id: EnvId, script: seq<Outcome>)
    requires Real(w, id) && w.store[id].localEnvPath == "" && Calm(script)
    requires BucketKey(w.store[id].s3BucketName) in w.ledger
             && w.ledger[BucketKey(w.store[id].s3BucketName)].BucketItem?
    ensures Serve(cfg, w, id, Config, Forward, script).1 == Acked
  {
    hide Serve, Carry, Perform, EnvPath, EnvFileOf, ConfigJsonOf, Pushed;
    var r := w.store[id];
    var prog := [Check, UploadConfig, WriteEnvFile, Put];
    Starts(cfg, w, id, Config, prog, script);
    var K := BucketKey(r.s3BucketName);
    var item := Pushed(w.ledger[K], Json(ConfigJsonOf(cfg, r)));
    ChangeGoes(cfg, Config, UploadConfig, w, r, script[2], K, item);
    var w1 := w.(ledger := w.ledger[K := item]);
    CalmStep(cfg, Config, w, r, prog, 1, script);
    ChangeGoes(cfg, Config, WriteEnvFile, w1, r, script[3], FileKey(EnvPath(cfg, id)), FileItem(EnvFileOf(cfg, r)));
    var v2 := Perform(cfg, Config, WriteEnvFile, w1, r, script[3]);
    CalmStep(cfg, Config, w1, r, prog, 2, script);
    Finishes(cfg, Config, v2.world, v2.local, prog, script);
  }

  lemma HealthProgress(cfg: Settings, w: World, id: EnvId, script: seq<Outcome>)
    requires Real(w, id) && !w.store[id].failAtHealth && Calm(script)
    ensures Serve(cfg, w, id, Health, Forward, script).1 == Acked
  {
    hide Serve, Carry;
    var prog := [Check, Probe];
    Starts(cfg, w, id, Health, prog, script);
    CalmStep(cfg, Health, w, w.store[id], prog, 1, script);
    CalmEnd(cfg, Health, w, w.store[id], prog, script);
  }

  lemma RegistryProgress(cfg: Settings, w: World, id: EnvId, script: seq<Outcome>)
    requires Real(w, id) && w.store[id].status != READY && Calm(script)
    ensures Serve(cfg, w, id, Registry, Forward, script).1 == Acked
  {
    hide Serve, Carry;
    var prog := [Check, Fill, Put];
    Starts(cfg, w, id, Registry, prog, script);
    CalmStep(cfg, Registry, w, w.store[id], prog, 1, script);
    Finishes(cfg, Registry, w, With(cfg, Registry, w.store[id]), prog, script);
  }

  // ----- the whole run -----

  /** What later steps need of earlier ones, and the names they need free. */
  ghost predicate Ready(cfg: Settings, w: World, id: EnvId, k: nat)
    requires k <= |STEPS|
  {
    && cfg.connected && Before(cfg, w, id, k) && !w.store[id].failAtHealth
    && var r := w.store[id];
    && (k >= 1 ==> SubnetKey(r.publicSubnetId) in w.ledger && GroupKey(r.securityGroupId) in w.ledger)
    && (k <= 1 ==> DbKey(DbName(id)) !in w.ledger)
    && (k <= 3 ==> BucketKey(BucketName(id)) !in w.ledger)
    && (k >= 4 ==> BucketKey(BucketName(id)) in w.ledger && w.ledger[BucketKey(BucketName(id))].BucketItem?)
    && (k <= 4 ==> PolicyKey(PolicyName(id)) !in w.ledger)
  }

  /** The script of step k lets it through: no fault, and identifiers never issued before. */
  ghost predicate Smooth(w: World, k: nat, script: seq<Outcome>) {
    && Calm(script)
    && (k == 0 ==> VpcIdsNew(w, script))
    && (k == 2 ==> AllNew(w, {InstanceKey(script[2].value)}))
  }

  lemma StepSucceeds(cfg: Settings, w: World, id: EnvId, k: nat, script: seq<Outcome>)
    requires k < 8 && Ready(cfg, w, id, k) && Smooth(w, k, script)
    ensures Serve(cfg, w, id, STEPS[k], Forward, script).1 == Acked
  {
    hide Serve, Consistent, DbName, BucketName, PolicyName, EnvPath;
    if k < 6 { assert w.store[id] == Blank(STEPS[k], w.store[id]); }
    match STEPS[k] {
      case Vpc => VpcProgress(cfg, w, id, script);
      case Rds => RdsProgress(cfg, w, id, script);
      case Ec2 => Ec2Progress(cfg, w, id, script);
      case S3 => S3Progress(cfg, w, id, script);
      case Identity => IdentityProgress(cfg, w, id, script);
      case Config => ConfigProgress(cfg, w, id, script);
      case Health => HealthProgress(cfg, w, id, script);
      case Registry => RegistryProgress(cfg, w, id, script);
    }
  }

  lemma StaysReady(cfg: Settings, w: World, id: EnvId, k: nat, script: seq<Outcome>)
    requires k < 7 && Ready(cfg, w, id, k) && Serve(cfg, w, id, STEPS[k], Forward, script).1 == Acked
    ensures Ready(cfg, Serve(cfg, w, id, STEPS[k], Forward, script).0, id, k + 1)
  {
    hide Serve, DbName, BucketName, PolicyName, EnvPath, Before, Pushed, VpcNetwork;
    ForwardKeepsBefore(cfg, w, id, k, script);
    BeforeFacts(cfg, w, id, k);
    match STEPS[k] {
      case Vpc => VpcForwardKeeps(cfg, w, id, script);
      case Rds => RdsForward(cfg, w, id, script);
      case Ec2 => Ec2Forward(cfg, w, id, script);
      case S3 => S3Forward(cfg, w, id, script);
      case Identity => IdentityForward(cfg, w, id, script);
      case Config => ConfigForward(cfg, w, id, script); PushedIsBucket(w.ledger, BucketName(id));
      case Health => HealthForward(cfg, w, id, script);
    }
  }

  /** Of the names other steps need, vpc takes none, and its own are there. */
  lemma VpcForwardKeeps(cfg: Settings, w: World, id: EnvId, script: seq<Outcome>)
    requires Real(w, id) && w.store[id].vpcId == "" && Serve(cfg, w, id, Vpc, Forward, script).1 == Acked
    ensures
      var w' := Serve(cfg, w, id, Vpc, Forward, script).0;
      && id in w'.store && w'.store[id].failAtHealth == w.store[id].failAtHealth
      && SubnetKey(w'.store[id].publicSubnetId) in w'.ledger && GroupKey(w'.store[id].securityGroupId) in w'.ledger
      && (forall k: Key :: k.DbKey? || k.BucketKey? || k.PolicyKey? ==> (k in w'.ledger <==> k in w.ledger))
  {
    hide Serve;
    VpcForward(cfg, w, id, script);
  }

  lemma PushedIsBucket(l: Ledger, b: string)
    ensures BucketKey(b) in l && l[BucketKey(b)].BucketItem? ==> forall v :: Pushed(l[BucketKey(b)], v).BucketItem?
  {
  }

  lemma BeforeFacts(cfg: Settings, w: World, id: EnvId, k: nat)
    requires k <= |STEPS| && Before(cfg, w, id, k)
    ensures Real(w, id) && (k < 6 ==> !Marked(STEPS[k], w.store[id]))
            && (k > 3 ==> w.store[id].s3BucketName == BucketName(id))
  {
    hide Consistent;
    if k < 6 { assert w.store[id] == Blank(STEPS[k], w.store[id]); }
  }

  lemma {:induction false} RunStaysReady(cfg: Settings, w: World, id: EnvId, scripts: seq<seq<Outcome>>, k: nat)
    requires k <= |scripts| && k <= 7 && Ready(cfg, w, id, 0)
    requires forall i | 0 <= i < k :: Smooth(ForwardTo(cfg, w, id, scripts, i), i, scripts[i])
    ensures Ready(cfg, ForwardTo(cfg, w, id, scripts, k), id, k) && ForwardAllAcked(cfg, w, id, scripts, k)
  {
    if k > 0 {
      hide Ready, Smooth, Serve;
      RunStaysReady(cfg, w, id, scripts, k - 1);
      var x := ForwardTo(cfg, w, id, scripts, k - 1);
      StepSucceeds(cfg, x, id, k - 1, scripts[k - 1]);
      StaysReady(cfg, x, id, k - 1, scripts[k - 1]);
    }
  }

  /** A real environment with nothing in its way becomes ready: no faults, no name taken, identifiers that are new when
      they are issued, no injected failure. With the reverse cascade this makes the round trip of a full run. */
  lemma RealRunSucceeds(cfg: Settings, w: World, id: EnvId, scripts: seq<seq<Outcome>>)
    requires |scripts| == 8 && cfg.connected && Real(w, id) && Consistent(w) && Fresh(w.store[id])
    requires w.store[id].status != READY && !w.store[id].failAtHealth
    requires FileKey(EnvPath(cfg, id)) !in w.ledger && DbKey(DbName(id)) !in w.ledger
    requires BucketKey(BucketName(id)) !in w.ledger && PolicyKey(PolicyName(id)) !in w.ledger
    requires forall i | 0 <= i < 8 :: Smooth(ForwardTo(cfg, w, id, scripts, i), i, scripts[i])
    ensures ForwardAllAcked(cfg, w, id, scripts, 8)
    ensures var x := ForwardTo(cfg, w, id, scripts, 8); id in x.store && x.store[id].status == "ready"
  {
    hide Serve, Consistent, Smooth, EnvPath, DbName, BucketName, PolicyName;
    FreshIsBefore(cfg, w, id);
    RunStaysReady(cfg, w, id, scripts, 7);
    var x := ForwardTo(cfg, w, id, scripts, 7);
    StepSucceeds(cfg, x, id, 7, scripts[7]);
    BeforeFacts(cfg, x, id, 7);
    RegistryForward(cfg, x, id, scripts[7]);
  }

  /** There and back: such a run, compensated in reverse without faults, leaves the cloud as it found it. */
  lemma FullRunAndBack(cfg: Settings, w: World, id: EnvId, scripts: seq<seq<Outcome>>, cscripts: seq<seq<Outcome>>)
    requires |scripts| == |cscripts| == 8 && cfg.connected && Real(w, id) && Consistent(w) && Fresh(w.store[id])
    requires w.store[id].status != READY && !w.store[id].failAtHealth
    requires FileKey(EnvPath(cfg, id)) !in w.ledger && DbKey(DbName(id)) !in w.ledger
    requires BucketKey(BucketName(id)) !in w.ledger && PolicyKey(PolicyName(id)) !in w.ledger
    requires forall i | 0 <= i < 8 :: Smooth(ForwardTo(cfg, w, id, scripts, i), i, scripts[i]) && Calm(cscripts[i])
    ensures
      var x := ForwardTo(cfg, w, id, scripts, 8);
      var (y, acked) := UndoFrom(cfg, x, id, cscripts, 8);
      && id in x.store && x.store[id].status == "ready"
      && acked && y == World(w.store[id := w.store[id].(status := "destroyed")], w.ledger, y.issued)
  {
    hide Serve, Consistent, Smooth, EnvPath, DbName, BucketName, PolicyName, Calm, ForwardTo, UndoFrom, ForwardAllAcked,
      Fresh;
    RealRunSucceeds(cfg, w, id, scripts);
    ReverseCascadeClears(cfg, w, id, scripts, cscripts, 8);
  }
}
