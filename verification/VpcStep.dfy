/** internal/steps/vpc.go as it runs: the record's fields are assigned one by one as the cloud answers. */
module VpcStep {
  import opened Records
  import opened Ledgers
  import opened Handlers
  import opened Stores
  import opened Services

  method Execute(cfg: Settings, env: Environment, store: Store, cloud: Cloud, script: seq<Outcome>,
                 now: nat) returns (ok: bool)
    requires store.Valid() && |script| >= 11
    modifies env, store, cloud
    ensures store.Valid()
    ensures Ends(ExecuteCourse(cfg, Vpc, old(Sight(store, cloud)), old(env.Value()), script), Sight(store, cloud), ok)
  {
    hide On, Ends, Sight, With, Records.Without, Intent, Updated, Skips;
    ghost var c := ExecuteCourse(cfg, Vpc, Sight(store, cloud), env.Value(), script);
    if env.dryRun {
      FillFields(cfg, env);
      LocalStep(c, 1, Sight(store, cloud), old(env.Value()));
      ok := Finish(c, env, store, cloud, now, script[3]);
      return;
    }
    ok := CreateNetwork(c, env, store, cloud, script[2]);
    if !ok { return; }
    ok := AwaitNetwork(c, env, store, cloud, script[3], script[4]);
    if !ok { return; }
    ok := CreatePublic(c, env, store, cloud, script[5]);
    if !ok { return; }
    ok := CreatePrivate(c, env, store, cloud, script[6]);
    if !ok { return; }
    ok := CreateSecurityGroup(c, env, store, cloud, script[7], script[8]);
    if !ok { return; }
    ok := Finish(c, env, store, cloud, now, script[9]);
  }

  method FillFields(cfg: Settings, env: Environment)
    modifies env
    ensures env.Value() == With(cfg, Vpc, old(env.Value()))
  {
    env.vpcId := "vpc-dryrun-" + Short(env.id);
    env.publicSubnetId := "subnet-pub-" + Short(env.id);
    env.privateSubnetId := "subnet-prv-" + Short(env.id);
    env.securityGroupId := "sg-" + Short(env.id);
  }

  method ClearFields(env: Environment)
    modifies env
    ensures env.Value() == Records.Without(Vpc, old(env.Value()))
  {
    env.securityGroupId := "";
    env.publicSubnetId := "";
    env.privateSubnetId := "";
    env.vpcId := "";
  }

  /** The requests of the step, for reference in its methods. */
  lemma Requests(cfg: Settings, r: Record, l: Ledger, v: string)
    ensures forall a | a in {CreateVpc, EnableDns, WaitVpc, CreatePublicSubnet, CreatePrivateSubnet, CreateGroup,
                             AuthorizeIngress} :: !Skips(a, r) && IsRequest(a)
    ensures Intent(cfg, CreateVpc, r, l, v) == Create(VpcKey(v), VpcItem("10.0.0.0/16", false))
            && Updated(cfg, CreateVpc, r, l, v) == r.(vpcId := v)
    ensures Intent(cfg, EnableDns, r, l, v) == NameHosts(l, VpcKey(r.vpcId)) && Updated(cfg, EnableDns, r, l, v) == r
    ensures Intent(cfg, WaitVpc, r, l, v) == Present(l, VpcKey(r.vpcId)) && Updated(cfg, WaitVpc, r, l, v) == r
    ensures Intent(cfg, CreatePublicSubnet, r, l, v) == Create(SubnetKey(v), SubnetItem(r.vpcId, "10.0.1.0/24"))
    ensures Updated(cfg, CreatePublicSubnet, r, l, v) == r.(publicSubnetId := v)
    ensures Intent(cfg, CreatePrivateSubnet, r, l, v) == Create(SubnetKey(v), SubnetItem(r.vpcId, "10.0.2.0/24"))
    ensures Updated(cfg, CreatePrivateSubnet, r, l, v) == r.(privateSubnetId := v)
    ensures Intent(cfg, CreateGroup, r, l, v) == Create(GroupKey(v), GroupItem(r.vpcId, Closed))
            && Updated(cfg, CreateGroup, r, l, v) == r.(securityGroupId := v)
    ensures Intent(cfg, AuthorizeIngress, r, l, v) == OpenPostgres(l, GroupKey(r.securityGroupId))
            && Updated(cfg, AuthorizeIngress, r, l, v) == r
  {
  }

  method CreateNetwork(ghost c: Course, env: Environment, store: Store, cloud: Cloud,
                       create: Outcome) returns (ok: bool)
    requires c.prog == VPC_PROGRAM && On(c, 1, Sight(store, cloud), env.Value()) && |c.script| > 4
             && c.script[2] == create
    modifies env, cloud
    ensures if ok then On(c, 2, Sight(store, cloud), env.Value()) else Ends(c, Sight(store, cloud), false)
  {
    hide On, Ends, Sight, Short, Intent, Updated, Skips, Present, NameHosts, OpenPostgres, Services.Value, IsRequest;
    Requests(c.cfg, env.Value(), cloud.ledger, Value(create));
    ok := Ask(c, 1, CreateVpc, env, store, cloud, Create(VpcKey(Value(create)), VpcItem("10.0.0.0/16", false)), create);
    if !ok { return; }
    env.vpcId := Value(create);
  }

  method AwaitNetwork(ghost c: Course, env: Environment, store: Store, cloud: Cloud, dns: Outcome,
                      wait: Outcome) returns (ok: bool)
    requires c.prog == VPC_PROGRAM && On(c, 2, Sight(store, cloud), env.Value()) && |c.script| > 4
             && c.script[3] == dns && c.script[4] == wait
    modifies cloud
    ensures if ok then On(c, 4, Sight(store, cloud), env.Value()) else Ends(c, Sight(store, cloud), false)
  {
    hide On, Ends, Sight, Short, Intent, Updated, Skips, Present, NameHosts, OpenPostgres, Services.Value, IsRequest;
    Requests(c.cfg, env.Value(), cloud.ledger, Value(dns));
    ok := Ask(c, 2, EnableDns, env, store, cloud, NameHosts(cloud.ledger, VpcKey(env.vpcId)), dns);
    if !ok { return; }
    Requests(c.cfg, env.Value(), cloud.ledger, Value(wait));
    ok := Ask(c, 3, WaitVpc, env, store, cloud, Present(cloud.ledger, VpcKey(env.vpcId)), wait);
  }

  method CreatePublic(ghost c: Course, env: Environment, store: Store, cloud: Cloud, create: Outcome) returns (ok: bool)
    requires c.prog == VPC_PROGRAM && On(c, 4, Sight(store, cloud), env.Value()) && |c.script| > 6
             && c.script[5] == create
    modifies env, cloud
    ensures if ok then On(c, 5, Sight(store, cloud), env.Value()) else Ends(c, Sight(store, cloud), false)
  {
    hide On, Ends, Sight, Short, Intent, Updated, Skips, Present, NameHosts, OpenPostgres, Services.Value, IsRequest;
    Requests(c.cfg, env.Value(), cloud.ledger, Value(create));
    ok := Ask(c, 4, CreatePublicSubnet, env, store, cloud,
              Create(SubnetKey(Value(create)), SubnetItem(env.vpcId, "10.0.1.0/24")),
              create);
    if !ok { return; }
    env.publicSubnetId := Value(create);
  }

  method CreatePrivate(ghost c: Course, env: Environment, store: Store, cloud: Cloud,
                       create: Outcome) returns (ok: bool)
    requires c.prog == VPC_PROGRAM && On(c, 5, Sight(store, cloud), env.Value()) && |c.script| > 6
             && c.script[6] == create
    modifies env, cloud
    ensures if ok then On(c, 6, Sight(store, cloud), env.Value()) else Ends(c, Sight(store, cloud), false)
  {
    hide On, Ends, Sight, Short, Intent, Updated, Skips, Present, NameHosts, OpenPostgres, Services.Value, IsRequest;
    Requests(c.cfg, env.Value(), cloud.ledger, Value(create));
    ok := Ask(c, 5, CreatePrivateSubnet, env, store, cloud,
              Create(SubnetKey(Value(create)), SubnetItem(env.vpcId, "10.0.2.0/24")),
              create);
    if !ok { return; }
    env.privateSubnetId := Value(create);
  }

  lemma GroupRequests(cfg: Settings, r: Record, l: Ledger, v: string)
    ensures !Skips(CreateGroup, r) && IsRequest(CreateGroup) && !Skips(AuthorizeIngress, r)
            && IsRequest(AuthorizeIngress)
    ensures Intent(cfg, CreateGroup, r, l, v) == Create(GroupKey(v), GroupItem(r.vpcId, Closed))
            && Updated(cfg, CreateGroup, r, l, v) == r.(securityGroupId := v)
    ensures Intent(cfg, AuthorizeIngress, r, l, v) == OpenPostgres(l, GroupKey(r.securityGroupId))
            && Updated(cfg, AuthorizeIngress, r, l, v) == r
  {
    hide Intent, Updated, Skips, IsRequest;
    Requests(cfg, r, l, v);
  }

  method CreateSecurityGroup(ghost c: Course, env: Environment, store: Store, cloud: Cloud, create: Outcome,
                             authorize: Outcome) returns (ok: bool)
    requires c.prog == VPC_PROGRAM && On(c, 6, Sight(store, cloud), env.Value()) && |c.script| > 8
             && c.script[7] == create && c.script[8] == authorize
    modifies env, cloud
    ensures if ok then On(c, 8, Sight(store, cloud), env.Value()) else Ends(c, Sight(store, cloud), false)
  {
    hide On, Ends, Sight, Short, Intent, Updated, Skips, Present, NameHosts, OpenPostgres, Services.Value, IsRequest;
    GroupRequests(c.cfg, env.Value(), cloud.ledger, Value(create));
    ok := Ask(c, 6, CreateGroup, env, store, cloud, Create(GroupKey(Value(create)), GroupItem(env.vpcId, Closed)),
              create);
    if !ok { return; }
    env.securityGroupId := Value(create);
    GroupRequests(c.cfg, env.Value(), cloud.ledger, Value(authorize));
    ok := Ask(c, 7, AuthorizeIngress, env, store, cloud, OpenPostgres(cloud.ledger, GroupKey(env.securityGroupId)),
              authorize);
  }

  /** Deletes in reverse order of dependency, leaving out what the record does not name. */
  method Compensate(cfg: Settings, env: Environment, store: Store, cloud: Cloud, script: seq<Outcome>,
                    now: nat) returns (ok: bool)
    requires store.Valid() && |script| >= 11
    modifies env, store, cloud
    ensures store.Valid()
    ensures Ends(CompensateCourse(cfg, Vpc, old(Sight(store, cloud)), old(env.Value()), script), Sight(store, cloud),
                 ok)
  {
    hide On, Ends, Sight, With, Records.Without, Updated, Skips, Intent;
    ghost var c := CompensateCourse(cfg, Vpc, Sight(store, cloud), env.Value(), script);
    if env.dryRun {
      ClearFields(env);
      LocalStep(c, 0, Sight(store, cloud), old(env.Value()));
      ok := Finish(c, env, store, cloud, now, script[2]);
      return;
    }
    ok := DeleteNetwork(c, env, store, cloud, script[1..5]);
    if !ok { return; }
    ClearFields(env);
    LocalStep(c, 4, Sight(store, cloud), old(env.Value()));
    ok := Finish(c, env, store, cloud, now, script[6]);
  }

  /** Security group, then subnets, then VPC. */
  method DeleteNetwork(ghost c: Course, env: Environment, store: Store, cloud: Cloud,
                       outcomes: seq<Outcome>) returns (ok: bool)
    requires On(c, 0, Sight(store, cloud), env.Value()) && c.prog == VPC_UNDO && |c.script| > 4
             && outcomes == c.script[1..5]
    modifies cloud
    ensures if ok then On(c, 4, Sight(store, cloud), env.Value()) else Ends(c, Sight(store, cloud), false)
  {
    hide On, Ends, Sight;
    ok := DeleteNamed(c, 0, env, store, cloud, GroupKey(env.securityGroupId), outcomes[0]);
    if !ok { return; }
    ok := DeleteSubnets(c, env, store, cloud, [outcomes[1], outcomes[2]]);
    if !ok { return; }
    ok := DeleteNamed(c, 3, env, store, cloud, VpcKey(env.vpcId), outcomes[3]);
  }

  method DeleteSubnets(ghost c: Course, env: Environment, store: Store, cloud: Cloud,
                       outcomes: seq<Outcome>) returns (ok: bool)
    requires On(c, 1, Sight(store, cloud), env.Value()) && |c.prog| > 2 && c.prog[1] == DeletePublicSubnet
             && c.prog[2] == DeletePrivateSubnet
    requires |c.script| > 3 && outcomes == [c.script[2], c.script[3]]
    modifies cloud
    ensures if ok then On(c, 3, Sight(store, cloud), env.Value()) else Ends(c, Sight(store, cloud), false)
  {
    hide On, Ends, Sight;
    var subnets := [env.publicSubnetId, env.privateSubnetId];
    ok := true;
    for i := 0 to |subnets|
      invariant ok && On(c, 1 + i, Sight(store, cloud), env.Value())
    {
      ok := DeleteNamed(c, 1 + i, env, store, cloud, SubnetKey(subnets[i]), outcomes[i]);
      if !ok { return; }
    }
  }

  function TargetOf(a: Action, r: Record): Key {
    match a
    case DeleteGroup => GroupKey(r.securityGroupId)
    case DeletePublicSubnet => SubnetKey(r.publicSubnetId)
    case DeletePrivateSubnet => SubnetKey(r.privateSubnetId)
    case _ => VpcKey(r.vpcId)
  }

  /** A delete that is left out when its target has no name. */
  method DeleteNamed(ghost c: Course, ghost pc: nat, env: Environment, store: Store, cloud: Cloud, key: Key,
                     o: Outcome) returns (ok: bool)
    requires On(c, pc, Sight(store, cloud), env.Value()) && pc < |c.prog| && o == c.script[pc + 1]
    requires c.prog[pc] in {DeleteGroup, DeletePublicSubnet, DeletePrivateSubnet, DeleteVpc}
             && key == TargetOf(c.prog[pc], env.Value())
    modifies cloud
    ensures if ok then On(c, pc + 1, Sight(store, cloud), env.Value()) else Ends(c, Sight(store, cloud), false)
  {
    hide On, Ends, Sight;
    if KeyName(key) == "" {
      SkipStep(c, pc, Sight(store, cloud), env.Value());
      return true;
    }
    ok := Ask(c, pc, c.prog[pc], env, store, cloud, Remove(key), o);
  }

  method IsAlreadyDone(env: Environment) returns (done: bool)
    ensures done == Marked(Vpc, env.Value())
  {
    return env.vpcId != "";
  }
}
