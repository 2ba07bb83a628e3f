/** Real mode: after any acknowledged prefix of steps, compensating in reverse order is never refused by the
    dependency-checked ledger and gives back exactly the ledger the run started from. */
module Cascade {
  import opened Records
  import opened Ledgers
  import opened Handlers

  /** What the cloud guarantees: identifiers in use were issued, and so was everything in use by something. */
  ghost predicate Consistent(w: World) {
    forall k :: k in w.ledger ==> (CloudNamed(k) ==> k in w.issued) && Uses(w.ledger[k]) <= w.issued.Keys
  }

  predicate Real(w: World, id: EnvId) {
    id in w.store && w.store[id].id == id && !w.store[id].dryRun
  }

  lemma OnlyCheckStopsAcked(cfg: Settings, step: Step, a: Action, w: World, r: Record, o: Outcome)
    requires a != Check
    ensures Perform(cfg, step, a, w, r, o) != Stop(Perform(cfg, step, a, w, r, o).world, Acked)
  {
    hide With, Without, Updated, Skips, Intent, Legal, Apply, PurgeSome;
  }

  /** An acknowledged handler got past every action but the check. */
  lemma CarryStep(cfg: Settings, step: Step, w: World, r: Record, prog: seq<Action>, pc: nat, script: seq<Outcome>)
    requires pc < |prog| && prog[pc] != Check && Carry(cfg, step, w, r, prog, pc, script).1 == Acked
    ensures pc + 1 < |script|
    ensures
      var v := Perform(cfg, step, prog[pc], w, r, script[pc + 1]);
      v.Go? && Carry(cfg, step, v.world, v.local, prog, pc + 1, script) == Carry(cfg, step, w, r, prog, pc, script)
  {
    hide Perform;
    if pc + 1 < |script| { OnlyCheckStopsAcked(cfg, step, prog[pc], w, r, script[pc + 1]); }
  }

  /** Forward while the step is not done, acknowledged: the check passes. */
  lemma ForwardStarts(cfg: Settings, w: World, id: EnvId, step: Step, script: seq<Outcome>)
    requires Real(w, id) && Serve(cfg, w, id, step, Forward, script).1 == Acked
    requires !Marked(step, w.store[id]) || (AsksCloud(step, w.store[id]) && !AlreadyDone(step, w.store[id], w.ledger))
    ensures
      var r := w.store[id];
      var prog := ForwardProgram(cfg, step, r);
      |prog| > 0 && prog[0] == Check
      && Serve(cfg, w, id, step, Forward, script) == Carry(cfg, step, w, r, prog, 1, script)
  {
  }

  predicate AllNew(w: World, keys: set<Key>) {
    forall k | k in keys :: KeyName(k) != "" && k !in w.issued && k !in w.ledger
  }

  lemma AckedEnd(cfg: Settings, step: Step, w: World, r: Record, prog: seq<Action>, script: seq<Outcome>)
    requires Carry(cfg, step, w, r, prog, |prog|, script).1 == Acked
    ensures Carry(cfg, step, w, r, prog, |prog|, script).0 == w
  {
  }

  // ----- single actions that went well -----

  lemma WaitedFor(cfg: Settings, w: World, r: Record, o: Outcome)
    requires Perform(cfg, Rds, WaitDbAvailable, w, r, o).Go?
    ensures
      var D := DbKey(r.rdsInstanceId);
      && o.Ok? && D in w.ledger && w.ledger[D].DbItem?
      && Perform(cfg, Rds, WaitDbAvailable, w, r, o)
         == Go(w.(ledger := w.ledger[D := w.ledger[D].(dbState := Available)]), r)
  {
    hide With, Without, AlreadyDone, AsksCloud, PurgeSome;
  }

  lemma Described(cfg: Settings, w: World, r: Record, o: Outcome)
    requires Perform(cfg, Rds, DescribeDb, w, r, o).Go?
    ensures o.Ok?
    ensures DbKey(r.rdsInstanceId) in w.ledger ==>
              Perform(cfg, Rds, DescribeDb, w, r, o)
              == Go(w, r.(rdsEndpoint := if o.value != "" then o.value else r.rdsEndpoint))
  {
    hide With, Without, AlreadyDone, AsksCloud, PurgeSome;
  }

  lemma Saved(cfg: Settings, step: Step, w: World, r: Record, o: Outcome)
    requires Perform(cfg, step, Put, w, r, o).Go?
    ensures o.Ok? && Perform(cfg, step, Put, w, r, o) == Go(w.(store := w.store[r.id := r]), r)
  {
  }

  /** Actions that look, or ask for something the ledger does not show. */
  lemma Looked(cfg: Settings, step: Step, a: Action, w: World, r: Record, o: Outcome)
    requires a == WaitVpc || a == VerifyPolicy || a == ReloadPolicies
    requires Perform(cfg, step, a, w, r, o).Go?
    ensures o.Ok? && Perform(cfg, step, a, w, r, o) == Go(w, r)
  {
    hide With, Without, Joined;
  }

  lemma DbNamed(cfg: Settings, w: World, r: Record, o: Outcome)
    requires Perform(cfg, Rds, NameDb, w, r, o).Go?
    ensures o.Ok? && Perform(cfg, Rds, NameDb, w, r, o)
                     == Go(w, r.(rdsPassword := o.value, rdsInstanceId := DbName(r.id)))
  {
    hide With, Without, DbName;
  }

  lemma DbMade(cfg: Settings, w: World, r: Record, o: Outcome)
    requires Perform(cfg, Rds, CreateDb, w, r, o).Go?
    ensures o.Ok? && DbKey(r.rdsInstanceId) !in w.ledger
    ensures Perform(cfg, Rds, CreateDb, w, r, o)
         == Go(w.(ledger := w.ledger[DbKey(r.rdsInstanceId) := DbItem(r.securityGroupId, r.rdsPassword, Creating)]), r)
  {
    hide With, Without, Uses;
  }

  // Resources whose identifier the cloud picks.

  lemma NetworkMade(cfg: Settings, w: World, r: Record, o: Outcome)
    requires Perform(cfg, Vpc, CreateVpc, w, r, o).Go?
    ensures o.Ok? && o.value != "" && VpcKey(o.value) !in w.ledger && VpcKey(o.value) !in w.issued
    ensures Perform(cfg, Vpc, CreateVpc, w, r, o)
         == Go(w.(ledger := w.ledger[VpcKey(o.value) := VpcItem("10.0.0.0/16", false)],
               issued := w.issued[VpcKey(o.value) := Short(r.id)]),
               r.(vpcId := o.value))
  {
    hide With, Without, Short, Uses;
  }

  lemma PublicMade(cfg: Settings, w: World, r: Record, o: Outcome)
    requires Perform(cfg, Vpc, CreatePublicSubnet, w, r, o).Go?
    ensures o.Ok? && o.value != "" && SubnetKey(o.value) !in w.ledger && SubnetKey(o.value) !in w.issued
    ensures Perform(cfg, Vpc, CreatePublicSubnet, w, r, o)
         == Go(w.(ledger := w.ledger[SubnetKey(o.value) := SubnetItem(r.vpcId, "10.0.1.0/24")],
               issued := w.issued[SubnetKey(o.value) := Short(r.id)]), r.(publicSubnetId := o.value))
  {
    hide With, Without, Short, Uses;
  }

  lemma PrivateMade(cfg: Settings, w: World, r: Record, o: Outcome)
    requires Perform(cfg, Vpc, CreatePrivateSubnet, w, r, o).Go?
    ensures o.Ok? && o.value != "" && SubnetKey(o.value) !in w.ledger && SubnetKey(o.value) !in w.issued
    ensures Perform(cfg, Vpc, CreatePrivateSubnet, w, r, o)
         == Go(w.(ledger := w.ledger[SubnetKey(o.value) := SubnetItem(r.vpcId, "10.0.2.0/24")],
               issued := w.issued[SubnetKey(o.value) := Short(r.id)]), r.(privateSubnetId := o.value))
  {
    hide With, Without, Short, Uses;
  }

  lemma GroupMade(cfg: Settings, w: World, r: Record, o: Outcome)
    requires Perform(cfg, Vpc, CreateGroup, w, r, o).Go?
    ensures o.Ok? && o.value != "" && GroupKey(o.value) !in w.ledger && GroupKey(o.value) !in w.issued
    ensures Perform(cfg, Vpc, CreateGroup, w, r, o)
         == Go(w.(ledger := w.ledger[GroupKey(o.value) := GroupItem(r.vpcId, Closed)],
               issued := w.issued[GroupKey(o.value) := Short(r.id)]), r.(securityGroupId := o.value))
  {
    hide With, Without, Short, Uses;
  }

  lemma HostsNamed(cfg: Settings, w: World, r: Record, o: Outcome)
    requires Perform(cfg, Vpc, EnableDns, w, r, o).Go?
    ensures
      var V := VpcKey(r.vpcId);
      && o.Ok? && V in w.ledger && w.ledger[V].VpcItem?
      && Perform(cfg, Vpc, EnableDns, w, r, o) == Go(w.(ledger := w.ledger[V := w.ledger[V].(dnsHostnames := true)]), r)
  {
    hide With, Without, Short, Uses;
  }

  lemma PostgresOpened(cfg: Settings, w: World, r: Record, o: Outcome)
    requires Perform(cfg, Vpc, AuthorizeIngress, w, r, o).Go?
    ensures
      var G := GroupKey(r.securityGroupId);
      && o.Ok? && G in w.ledger && w.ledger[G].GroupItem?
      && Perform(cfg, Vpc, AuthorizeIngress, w, r, o)
         == Go(w.(ledger := w.ledger[G := w.ledger[G].(ingress := Open(5432, "10.0.0.0/16"))]), r)
  {
    hide With, Without, Short, Uses;
  }

  // ----- what an acknowledged Execute leaves -----

  /** Every derived name, written out. */
  lemma NamesAre(id: EnvId)
    ensures DbName(id) == BucketName(id) == "env-forge-" + id[..8]
  {
  }

  lemma PolicyIs(cfg: Settings, id: EnvId)
    ensures PolicyName(id) == "policy-env-" + id[..8]
    ensures
      var env := "spiffe://" + cfg.trustDomain + "/env-" + id[..8];
      && AppSpiffeId(cfg, id) == env + "/app" && DbProxySpiffeId(cfg, id) == env + "/db-proxy"
      && PolicyOf(cfg, id) == PolicyItem(env + "/app", env + "/db-proxy", ["read", "write"], 3600)
  {
  }

  /** The ledger with the network this record names: a VPC with DNS host names, a public and a private subnet in it, and
      a security group in it that lets PostgreSQL in from the VPC. */
  function VpcNetwork(l: Ledger, r: Record): Ledger {
    l[VpcKey(r.vpcId) := VpcItem("10.0.0.0/16", true)][SubnetKey(r.publicSubnetId) := SubnetItem(r.vpcId,
                                                                                                 "10.0.1.0/24")]
    [SubnetKey(r.privateSubnetId) := SubnetItem(r.vpcId, "10.0.2.0/24")]
    [GroupKey(r.securityGroupId) := GroupItem(r.vpcId, Open(5432, "10.0.0.0/16"))]
  }

  lemma VpcForward(cfg: Settings, w: World, id: EnvId, script: seq<Outcome>)
    requires Real(w, id) && w.store[id].vpcId == "" && Serve(cfg, w, id, Vpc, Forward, script).1 == Acked
    ensures
      var w' := Serve(cfg, w, id, Vpc, Forward, script).0;
      && id in w'.store
      && var r, r' := w.store[id], w'.store[id];
      var V, P, Q, G := VpcKey(r'.vpcId), SubnetKey(r'.publicSubnetId), SubnetKey(r'.privateSubnetId),
                        GroupKey(r'.securityGroupId);
      && w'.store == w.store[id := r'] && AgreeOutside(Vpc, r, r')
      && AllNew(w, {V, P, Q, G}) && P != Q
      && w'.ledger == VpcNetwork(w.ledger, r')
      && |script| > 9 && (forall i | 2 <= i < 10 :: script[i].Ok?)
      && r'.vpcId == script[2].value && r'.publicSubnetId == script[5].value && r'.privateSubnetId == script[6].value
      && r'.securityGroupId == script[7].value
  {
    hide Serve, Carry, Perform, Uses, Short;
    ForwardStarts(cfg, w, id, Vpc, script);
    var r := w.store[id];
    var prog := ForwardProgram(cfg, Vpc, r);
    assert prog == VPC_PROGRAM;
    VpcForwardHead(cfg, w, r, script);
    var V := VpcKey(script[2].value);
    var w2 := World(w.store, w.ledger[V := VpcItem("10.0.0.0/16", true)], w.issued[V := Short(r.id)]);
    var r2 := r.(vpcId := script[2].value);
    VpcForwardLook(cfg, w2, r2, script);
    PublicMade(cfg, w2, r2, script[5]);
    var v4 := Perform(cfg, Vpc, CreatePublicSubnet, w2, r2, script[5]);
    VpcForwardTail(cfg, v4.world, v4.local, script);
  }

  lemma VpcForwardHead(cfg: Settings, w: World, r: Record, script: seq<Outcome>)
    requires Carry(cfg, Vpc, w, r, VPC_PROGRAM, 1, script).1 == Acked
    ensures |script| > 3 && script[2].Ok? && script[3].Ok? && AllNew(w, {VpcKey(script[2].value)})
    ensures
      var V := VpcKey(script[2].value);
      var w2 := World(w.store, w.ledger[V := VpcItem("10.0.0.0/16", true)], w.issued[V := Short(r.id)]);
      Carry(cfg, Vpc, w, r, VPC_PROGRAM, 1, script)
      == Carry(cfg, Vpc, w2, r.(vpcId := script[2].value), VPC_PROGRAM, 3, script)
  {
    hide Carry, Perform, Uses, Short;
    CarryStep(cfg, Vpc, w, r, VPC_PROGRAM, 1, script);
    NetworkMade(cfg, w, r, script[2]);
    var v1 := Perform(cfg, Vpc, CreateVpc, w, r, script[2]);
    CarryStep(cfg, Vpc, v1.world, v1.local, VPC_PROGRAM, 2, script);
    HostsNamed(cfg, v1.world, v1.local, script[3]);
    var V := VpcKey(script[2].value);
    assert w.ledger[V := VpcItem("10.0.0.0/16", false)][V := VpcItem("10.0.0.0/16", true)]
        == w.ledger[V := VpcItem("10.0.0.0/16", true)];
  }

  lemma VpcForwardLook(cfg: Settings, w: World, r: Record, script: seq<Outcome>)
    requires Carry(cfg, Vpc, w, r, VPC_PROGRAM, 3, script).1 == Acked
    ensures |script| > 5 && script[4].Ok?
    ensures
      var v := Perform(cfg, Vpc, CreatePublicSubnet, w, r, script[5]);
      && v.Go?
      && Carry(cfg, Vpc, v.world, v.local, VPC_PROGRAM, 5, script) == Carry(cfg, Vpc, w, r, VPC_PROGRAM, 3, script)
  {
    hide Carry, Perform;
    CarryStep(cfg, Vpc, w, r, VPC_PROGRAM, 3, script);
    Looked(cfg, Vpc, WaitVpc, w, r, script[4]);
    CarryStep(cfg, Vpc, w, r, VPC_PROGRAM, 4, script);
  }

  lemma VpcForwardTail(cfg: Settings, w: World, r: Record, script: seq<Outcome>)
    requires Carry(cfg, Vpc, w, r, VPC_PROGRAM, 5, script).1 == Acked
    ensures
      var w' := Carry(cfg, Vpc, w, r, VPC_PROGRAM, 5, script).0;
      && r.id in w'.store
      && var r' := w'.store[r.id];
      var Q, G := SubnetKey(r'.privateSubnetId), GroupKey(r'.securityGroupId);
      && w'.store == w.store[r.id := r']
      && r' == r.(privateSubnetId := r'.privateSubnetId, securityGroupId := r'.securityGroupId)
      && KeyName(Q) != "" && KeyName(G) != "" && Q !in w.issued && G !in w.issued && Q !in w.ledger && G !in w.ledger
      && w'.ledger == w.ledger[Q := SubnetItem(r.vpcId, "10.0.2.0/24")]
                      [G := GroupItem(r.vpcId, Open(5432, "10.0.0.0/16"))]
      && |script| > 9 && (forall i | 6 <= i < 10 :: script[i].Ok?)
      && r'.privateSubnetId == script[6].value && r'.securityGroupId == script[7].value
  {
    hide Carry, Perform, Short;
    var prog := VPC_PROGRAM;
    CarryStep(cfg, Vpc, w, r, prog, 5, script);
    var v5 := Perform(cfg, Vpc, CreatePrivateSubnet, w, r, script[6]);
    PrivateMade(cfg, w, r, script[6]);
    CarryStep(cfg, Vpc, v5.world, v5.local, prog, 6, script);
    var v6 := Perform(cfg, Vpc, CreateGroup, v5.world, v5.local, script[7]);
    GroupMade(cfg, v5.world, v5.local, script[7]);
    VpcForwardEnd(cfg, v6.world, v6.local, script);
  }

  lemma VpcForwardEnd(cfg: Settings, w: World, r: Record, script: seq<Outcome>)
    requires Carry(cfg, Vpc, w, r, VPC_PROGRAM, 7, script).1 == Acked
    ensures |script| > 9 && script[8].Ok? && script[9].Ok?
    ensures
      var G := GroupKey(r.securityGroupId);
      && G in w.ledger && w.ledger[G].GroupItem?
      && Carry(cfg, Vpc, w, r, VPC_PROGRAM, 7, script).0
         == w.(store := w.store[r.id := r], ledger := w.ledger[G := w.ledger[G].(ingress := Open(5432, "10.0.0.0/16"))])
  {
    hide Carry, Perform;
    var prog := VPC_PROGRAM;
    CarryStep(cfg, Vpc, w, r, prog, 7, script);
    PostgresOpened(cfg, w, r, script[8]);
    var w8 := Perform(cfg, Vpc, AuthorizeIngress, w, r, script[8]).world;
    CarryStep(cfg, Vpc, w8, r, prog, 8, script);
    Saved(cfg, Vpc, w8, r, script[9]);
    AckedEnd(cfg, Vpc, w8.(store := w8.store[r.id := r]), r, prog, script);
  }

  /** No instance is recorded, or the recorded one is gone or not available. */
  predicate DbMissing(r: Record, l: Ledger) {
    var D := DbKey(r.rdsInstanceId);
    r.rdsInstanceId == "" || D !in l || !l[D].DbItem? || l[D].dbState != Available
  }

  /** Also when a recorded instance has disappeared since: it is made again. */
  lemma RdsForward(cfg: Settings, w: World, id: EnvId, script: seq<Outcome>)
    requires Real(w, id) && DbMissing(w.store[id], w.ledger) && Serve(cfg, w, id, Rds, Forward, script).1 == Acked
    ensures
      var w' := Serve(cfg, w, id, Rds, Forward, script).0;
      && id in w'.store
      && var r, r' := w.store[id], w'.store[id];
      && w'.store == w.store[id := r'] && AgreeOutside(Rds, r, r')
      && r'.rdsInstanceId == DbName(id) == "env-forge-" + id[..8] && DbKey(DbName(id)) !in w.ledger
      && |script| > 7 && (forall i | 2 <= i < 8 :: script[i].Ok?)
      && r'.rdsPassword == script[2].value
      && r'.rdsEndpoint == (if script[6].value != "" then script[6].value else r.rdsEndpoint)
      && w'.ledger == w.ledger[DbKey(DbName(id)) := DbItem(r.securityGroupId, r'.rdsPassword, Available)]
  {
    hide Serve, Carry, Perform, DbName, BucketName, DbMissing, Marked, AsksCloud, AlreadyDone;
    NamesAre(id);
    MissingIsNotDone(w.store[id], w.ledger);
    ForwardStarts(cfg, w, id, Rds, script);
    var r := w.store[id];
    var prog := ForwardProgram(cfg, Rds, r);
    assert prog == RDS_PROGRAM;
    CarryStep(cfg, Rds, w, r, prog, 1, script);
    var v1 := Perform(cfg, Rds, NameDb, w, r, script[2]);
    DbNamed(cfg, w, r, script[2]);
    CarryStep(cfg, Rds, v1.world, v1.local, prog, 2, script);
    var v2 := Perform(cfg, Rds, CreateDb, v1.world, v1.local, script[3]);
    DbMade(cfg, v1.world, v1.local, script[3]);
    CarryStep(cfg, Rds, v2.world, v2.local, prog, 3, script);
    var v3 := Perform(cfg, Rds, Put, v2.world, v2.local, script[4]);
    Saved(cfg, Rds, v2.world, v2.local, script[4]);
    RdsForwardTail(cfg, v3.world, v3.local, script);
  }

  lemma RdsForwardTail(cfg: Settings, w: World, r: Record, script: seq<Outcome>)
    requires Carry(cfg, Rds, w, r, RDS_PROGRAM, 4, script).1 == Acked
    ensures
      var w' := Carry(cfg, Rds, w, r, RDS_PROGRAM, 4, script).0;
      var D := DbKey(r.rdsInstanceId);
      && r.id in w'.store
      && |script| > 7 && (forall i | 5 <= i < 8 :: script[i].Ok?)
      && w'.store
         == w.store[r.id := r.(rdsEndpoint := if script[6].value != "" then script[6].value else r.rdsEndpoint)]
      && D in w.ledger && w.ledger[D].DbItem?
      && w'.ledger == w.ledger[D := w.ledger[D].(dbState := Available)]
  {
    hide Carry, Perform;
    var prog := RDS_PROGRAM;
    CarryStep(cfg, Rds, w, r, prog, 4, script);
    var v4 := Perform(cfg, Rds, WaitDbAvailable, w, r, script[5]);
    WaitedFor(cfg, w, r, script[5]);
    CarryStep(cfg, Rds, v4.world, v4.local, prog, 5, script);
    var v5 := Perform(cfg, Rds, DescribeDb, v4.world, v4.local, script[6]);
    Described(cfg, v4.world, v4.local, script[6]);
    CarryStep(cfg, Rds, v5.world, v5.local, prog, 6, script);
    Saved(cfg, Rds, v5.world, v5.local, script[7]);
    AckedEnd(cfg, Rds, v5.world.(store := v5.world.store[r.id := v5.local]), v5.local, prog, script);
  }

  predicate InstanceMissing(r: Record, l: Ledger) {
    var I := InstanceKey(r.ec2InstanceId);
    r.ec2InstanceId == "" || I !in l || !l[I].InstanceItem? || l[I].instanceState != InstanceState.Running
  }

  lemma MissingIsNotDone(r: Record, l: Ledger)
    requires !r.dryRun
    ensures DbMissing(r, l) ==> !Marked(Rds, r) || (AsksCloud(Rds, r) && !AlreadyDone(Rds, r, l))
    ensures InstanceMissing(r, l) ==> !Marked(Ec2, r) || (AsksCloud(Ec2, r) && !AlreadyDone(Ec2, r, l))
  {
  }

  /** Also when the recorded instance has disappeared or stopped since: another one is launched. */
  lemma Ec2Forward(cfg: Settings, w: World, id: EnvId, script: seq<Outcome>)
    requires Real(w, id) && InstanceMissing(w.store[id], w.ledger)
             && Serve(cfg, w, id, Ec2, Forward, script).1 == Acked
    ensures
      var w' := Serve(cfg, w, id, Ec2, Forward, script).0;
      && id in w'.store
      && var r, r' := w.store[id], w'.store[id];
      var I := InstanceKey(r'.ec2InstanceId);
      && |script| > 6 && (forall i | 2 <= i < 7 :: script[i].Ok?)
      && r' == r.(ec2InstanceId := script[2].value, ec2PublicIp := script[5].value)
      && w'.store == w.store[id := r'] && AllNew(w, {I})
      && w'.ledger == w.ledger[I := InstanceItem(r.publicSubnetId, r.securityGroupId, InstanceState.Running)]
  {
    hide Serve, Carry, Perform, Uses, Short, InstanceMissing, Marked, AsksCloud, AlreadyDone;
    MissingIsNotDone(w.store[id], w.ledger);
    ForwardStarts(cfg, w, id, Ec2, script);
    var r := w.store[id];
    var prog := ForwardProgram(cfg, Ec2, r);
    assert prog == EC2_PROGRAM;
    CarryStep(cfg, Ec2, w, r, prog, 1, script);
    InstanceLaunched(cfg, w, r, script[2]);
    var v1 := Perform(cfg, Ec2, RunInstance, w, r, script[2]);
    CarryStep(cfg, Ec2, v1.world, v1.local, prog, 2, script);
    Saved(cfg, Ec2, v1.world, v1.local, script[3]);
    var v2 := Perform(cfg, Ec2, Put, v1.world, v1.local, script[3]);
    Ec2ForwardTail(cfg, v2.world, v2.local, script);
  }

  lemma InstanceLaunched(cfg: Settings, w: World, r: Record, o: Outcome)
    requires Perform(cfg, Ec2, RunInstance, w, r, o).Go?
    ensures
      var J := InstanceKey(o.value);
      && o.Ok? && o.value != "" && J !in w.ledger && J !in w.issued
      && Perform(cfg, Ec2, RunInstance, w, r, o)
         == Go(w.(ledger := w.ledger[J := InstanceItem(r.publicSubnetId, r.securityGroupId, Pending)],
               issued := w.issued[J := Short(r.id)]), r.(ec2InstanceId := o.value))
  {
    hide With, Without, Short, Uses;
  }

  lemma InstanceUp(cfg: Settings, w: World, r: Record, o: Outcome)
    requires Perform(cfg, Ec2, WaitRunning, w, r, o).Go?
    ensures
      var I := InstanceKey(r.ec2InstanceId);
      && o.Ok? && I in w.ledger && w.ledger[I].InstanceItem?
      && Perform(cfg, Ec2, WaitRunning, w, r, o)
         == Go(w.(ledger := w.ledger[I := w.ledger[I].(instanceState := InstanceState.Running)]), r)
  {
    hide With, Without;
  }

  lemma InstanceDescribed(cfg: Settings, w: World, r: Record, o: Outcome)
    requires Perform(cfg, Ec2, DescribeInstance, w, r, o).Go?
    ensures o.Ok?
    ensures InstanceKey(r.ec2InstanceId) in w.ledger ==>
              Perform(cfg, Ec2, DescribeInstance, w, r, o) == Go(w, r.(ec2PublicIp := o.value))
  {
    hide With, Without;
  }

  lemma Ec2ForwardTail(cfg: Settings, w: World, r: Record, script: seq<Outcome>)
    requires Carry(cfg, Ec2, w, r, EC2_PROGRAM, 3, script).1 == Acked
    ensures
      var w' := Carry(cfg, Ec2, w, r, EC2_PROGRAM, 3, script).0;
      var I := InstanceKey(r.ec2InstanceId);
      && r.id in w'.store
      && |script| > 6 && (forall i | 4 <= i < 7 :: script[i].Ok?)
      && w'.store == w.store[r.id := r.(ec2PublicIp := script[5].value)]
      && I in w.ledger && w.ledger[I].InstanceItem?
      && w'.ledger == w.ledger[I := w.ledger[I].(instanceState := InstanceState.Running)]
  {
    hide Carry, Perform;
    var prog := EC2_PROGRAM;
    CarryStep(cfg, Ec2, w, r, prog, 3, script);
    var v3 := Perform(cfg, Ec2, WaitRunning, w, r, script[4]);
    InstanceUp(cfg, w, r, script[4]);
    CarryStep(cfg, Ec2, v3.world, v3.local, prog, 4, script);
    var v4 := Perform(cfg, Ec2, DescribeInstance, v3.world, v3.local, script[5]);
    InstanceDescribed(cfg, v3.world, v3.local, script[5]);
    CarryStep(cfg, Ec2, v4.world, v4.local, prog, 5, script);
    Saved(cfg, Ec2, v4.world, v4.local, script[6]);
    AckedEnd(cfg, Ec2, v4.world.(store := v4.world.store[r.id := v4.local]), v4.local, prog, script);
  }

  lemma BucketMade(cfg: Settings, w: World, r: Record, o: Outcome)
    requires Perform(cfg, S3, CreateBucket, w, r, o).Go?
    ensures
      var K := BucketKey(BucketName(r.id));
      && K !in w.ledger
      && Perform(cfg, S3, CreateBucket, w, r, o)
         == Go(w.(ledger := w.ledger[K := BucketItem(false, [])]), r.(s3BucketName := BucketName(r.id)))
  {
    hide With, Without, BucketName;
  }

  lemma BucketVersioned(cfg: Settings, w: World, r: Record, o: Outcome)
    requires Perform(cfg, S3, EnableVersioning, w, r, o).Go?
    ensures
      var K := BucketKey(r.s3BucketName);
      && K in w.ledger && w.ledger[K].BucketItem?
      && Perform(cfg, S3, EnableVersioning, w, r, o)
         == Go(w.(ledger := w.ledger[K := w.ledger[K].(versioned := true)]), r)
  {
    hide With, Without;
  }

  lemma S3Forward(cfg: Settings, w: World, id: EnvId, script: seq<Outcome>)
    requires Real(w, id) && w.store[id].s3BucketName == "" && Serve(cfg, w, id, S3, Forward, script).1 == Acked
    ensures
      var w' := Serve(cfg, w, id, S3, Forward, script).0;
      && BucketName(id) == "env-forge-" + id[..8] && BucketKey(BucketName(id)) !in w.ledger
      && w'.store == w.store[id := w.store[id].(s3BucketName := BucketName(id))]
      && w'.ledger == w.ledger[BucketKey(BucketName(id)) := BucketItem(true, [Placeholder])]
  {
    hide Serve, Carry, Perform, BucketName;
    NamesAre(id);
    ForwardStarts(cfg, w, id, S3, script);
    var r := w.store[id];
    var prog := ForwardProgram(cfg, S3, r);
    assert prog == S3_PROGRAM;
    assert [Placeholder] + [] == [Placeholder];
    CarryStep(cfg, S3, w, r, prog, 1, script);
    var v1 := Perform(cfg, S3, CreateBucket, w, r, script[2]);
    BucketMade(cfg, w, r, script[2]);
    CarryStep(cfg, S3, v1.world, v1.local, prog, 2, script);
    var v2 := Perform(cfg, S3, EnableVersioning, v1.world, v1.local, script[3]);
    BucketVersioned(cfg, v1.world, v1.local, script[3]);
    S3ForwardTail(cfg, v2.world, v2.local, script);
  }

  lemma S3ForwardTail(cfg: Settings, w: World, r: Record, script: seq<Outcome>)
    requires Carry(cfg, S3, w, r, S3_PROGRAM, 3, script).1 == Acked
    ensures
      var w' := Carry(cfg, S3, w, r, S3_PROGRAM, 3, script).0;
      var B := BucketKey(r.s3BucketName);
      && w'.store == w.store[r.id := r]
      && B in w.ledger && w.ledger[B].BucketItem?
      && w'.ledger == w.ledger[B := Pushed(w.ledger[B], Placeholder)]
  {
    hide Carry, Uses, Pushed, With, Without, AlreadyDone, AsksCloud, PurgeSome;
    var prog := S3_PROGRAM;
    CarryStep(cfg, S3, w, r, prog, 3, script);
    var v3 := Perform(cfg, S3, PutPlaceholder, w, r, script[4]);
    CarryStep(cfg, S3, v3.world, v3.local, prog, 4, script);
    AckedEnd(cfg, S3, v3.world.(store := v3.world.store[r.id := v3.local]), v3.local, prog, script);
  }

  /** The policy lets the environment's app obtain tokens for its db-proxy, and not the other way round; the record
      lists the two workloads in that order. On a connected worker this holds in dry-run too. */
  lemma IdentityForward(cfg: Settings, w: World, id: EnvId, script: seq<Outcome>)
    requires id in w.store && w.store[id].id == id && (!w.store[id].dryRun || cfg.connected)
    requires w.store[id].svidExchangePolicyName == "" && Serve(cfg, w, id, Identity, Forward, script).1 == Acked
    ensures cfg.connected
    ensures
      var w' := Serve(cfg, w, id, Identity, Forward, script).0;
      var app, proxy := "spiffe://" + cfg.trustDomain + "/env-" + id[..8] + "/app",
                        "spiffe://" + cfg.trustDomain + "/env-" + id[..8] + "/db-proxy";
      && PolicyName(id) == "policy-env-" + id[..8] && PolicyKey(PolicyName(id)) !in w.ledger
      && w'.store
         == w.store[id := w.store[id].(svidExchangePolicyName := PolicyName(id), spireEntryIds := [app, proxy])]
      && w'.ledger
         == w.ledger[PolicyKey(PolicyName(id)) := PolicyItem(app, proxy, ["read", "write"], 3600)]
  {
    hide Carry, Perform, PolicyName;
    var r := w.store[id];
    var prog := ForwardProgram(cfg, Identity, r);
    assert prog[0] == Check;
    IdentityChecked(cfg, w, r, prog, script);
    if !cfg.connected { OnlyRefuses(cfg, w, r, script); }
    IdentityExecuted(cfg, w, r, script);
  }

  lemma IdentityChecked(cfg: Settings, w: World, r: Record, prog: seq<Action>, script: seq<Outcome>)
    requires |prog| > 0 && prog[0] == Check && r.svidExchangePolicyName == ""
    requires Carry(cfg, Identity, w, r, prog, 0, script).1 == Acked
    ensures Carry(cfg, Identity, w, r, prog, 0, script) == Carry(cfg, Identity, w, r, prog, 1, script)
  {
  }

  /** The same of Execute alone, without the check. */
  lemma IdentityExecuted(cfg: Settings, w: World, r: Record, script: seq<Outcome>)
    requires Carry(cfg, Identity, w, r, IDENTITY_PROGRAM, 1, script).1 == Acked
    ensures
      var w' := Carry(cfg, Identity, w, r, IDENTITY_PROGRAM, 1, script).0;
      var app, proxy := "spiffe://" + cfg.trustDomain + "/env-" + r.id[..8] + "/app",
                        "spiffe://" + cfg.trustDomain + "/env-" + r.id[..8] + "/db-proxy";
      && PolicyName(r.id) == "policy-env-" + r.id[..8] && PolicyKey(PolicyName(r.id)) !in w.ledger
      && w'.store == w.store[r.id := r.(svidExchangePolicyName := PolicyName(r.id), spireEntryIds := [app, proxy])]
      && w'.ledger == w.ledger[PolicyKey(PolicyName(r.id)) := PolicyItem(app, proxy, ["read", "write"], 3600)]
  {
    hide Carry, Perform, PolicyName, PolicyOf, AppSpiffeId, DbProxySpiffeId;
    PolicyIs(cfg, r.id);
    CarryStep(cfg, Identity, w, r, IDENTITY_PROGRAM, 1, script);
    PolicyMade(cfg, w, r, script[2]);
    var v1 := Perform(cfg, Identity, CreatePolicy, w, r, script[2]);
    IdentityForwardTail(cfg, v1.world, v1.local, script);
  }

  /** The check after the creation passes exactly when the service has the policy with both scopes and the lifetime. */
  lemma PolicyVerified(cfg: Settings, w: World, r: Record, o: Outcome)
    ensures
      var K := PolicyKey(r.svidExchangePolicyName);
      Perform(cfg, Identity, VerifyPolicy, w, r, o)
      == if o.Ok? && K in w.ledger && w.ledger[K].PolicyItem? && Joined(w.ledger[K].scopes) == "read,write"
            && w.ledger[K].maxTtl == 3600 then Go(w, r) else Stop(w, Refused)
  {
    hide With, Without;
    JoinedScopes();
  }

  lemma JoinedScopes()
    ensures Joined(["read", "write"]) == "read,write"
  {
    assert ["read", "write"][1..] == ["write"];
  }

  lemma PolicyMade(cfg: Settings, w: World, r: Record, o: Outcome)
    requires Perform(cfg, Identity, CreatePolicy, w, r, o).Go?
    ensures PolicyKey(PolicyName(r.id)) !in w.ledger
    ensures Perform(cfg, Identity, CreatePolicy, w, r, o)
         == Go(w.(ledger := w.ledger[PolicyKey(PolicyName(r.id)) := PolicyOf(cfg, r.id)]),
               r.(svidExchangePolicyName := PolicyName(r.id)))
  {
    hide With, Without, PolicyName, PolicyOf;
  }

  /** Without a connection a real identity Execute is always an error. */
  lemma OnlyRefuses(cfg: Settings, w: World, r: Record, script: seq<Outcome>)
    ensures Carry(cfg, Identity, w, r, [Check, Refuse], 1, script).1 != Acked
  {
  }

  lemma IdentityForwardTail(cfg: Settings, w: World, r: Record, script: seq<Outcome>)
    requires Carry(cfg, Identity, w, r, IDENTITY_PROGRAM, 2, script).1 == Acked
    ensures
      var w' := Carry(cfg, Identity, w, r, IDENTITY_PROGRAM, 2, script).0;
      && w'.store == w.store[r.id := r.(spireEntryIds := [AppSpiffeId(cfg, r.id), DbProxySpiffeId(cfg, r.id)])]
      && w'.ledger == w.ledger
  {
    hide Carry, Perform, AppSpiffeId, DbProxySpiffeId;
    var prog := IDENTITY_PROGRAM;
    CarryStep(cfg, Identity, w, r, prog, 2, script);
    Looked(cfg, Identity, VerifyPolicy, w, r, script[3]);
    CarryStep(cfg, Identity, w, r, prog, 3, script);
    Looked(cfg, Identity, ReloadPolicies, w, r, script[4]);
    CarryStep(cfg, Identity, w, r, prog, 4, script);
    var v4 := Perform(cfg, Identity, NameEntries, w, r, script[5]);
    EntriesNamed(cfg, w, r, script[5]);
    CarryStep(cfg, Identity, v4.world, v4.local, prog, 5, script);
    Saved(cfg, Identity, v4.world, v4.local, script[6]);
    AckedEnd(cfg, Identity, v4.world.(store := v4.world.store[r.id := v4.local]), v4.local, prog, script);
  }

  lemma EntriesNamed(cfg: Settings, w: World, r: Record, o: Outcome)
    ensures Perform(cfg, Identity, NameEntries, w, r, o)
         == Go(w, r.(spireEntryIds := [AppSpiffeId(cfg, r.id), DbProxySpiffeId(cfg, r.id)]))
  {
    hide AppSpiffeId, DbProxySpiffeId;
  }

  lemma ConfigForward(cfg: Settings, w: World, id: EnvId, script: seq<Outcome>)
    requires Real(w, id) && w.store[id].localEnvPath == "" && Serve(cfg, w, id, Config, Forward, script).1 == Acked
    ensures
      var w' := Serve(cfg, w, id, Config, Forward, script).0;
      var r := w.store[id];
      var B := BucketKey(r.s3BucketName);
      var file := EnvFile(id, r.rdsEndpoint, r.rdsPassword, r.s3BucketName, "/run/spire/sockets/agent.sock",
                          cfg.exchangeAddr, "http://" + cfg.exchangeAddr + "/jwks");
      && EnvPath(cfg, id) == cfg.envDir + "/env-" + id[..8] + ".env"
      && w'.store == w.store[id := r.(localEnvPath := EnvPath(cfg, id))]
      && B in w.ledger && w.ledger[B].BucketItem?
      && var pushed := w.ledger[B := Pushed(w.ledger[B], Json(ConfigJson(file, cfg.trustDomain)))];
      w'.ledger == pushed[FileKey(EnvPath(cfg, id)) := FileItem(file)]
  {
    hide Serve, Carry, EnvPath, EnvFileOf, ConfigJsonOf, Pushed, AlreadyDone, AsksCloud, With, Without, PurgeSome;
    FileIs(cfg, w.store[id]);
    ForwardStarts(cfg, w, id, Config, script);
    var r := w.store[id];
    var prog := ForwardProgram(cfg, Config, r);
    assert prog == [Check, UploadConfig, WriteEnvFile, Put];
    CarryStep(cfg, Config, w, r, prog, 1, script);
    var v1 := Perform(cfg, Config, UploadConfig, w, r, script[2]);
    CarryStep(cfg, Config, v1.world, v1.local, prog, 2, script);
    var v2 := Perform(cfg, Config, WriteEnvFile, v1.world, v1.local, script[3]);
    CarryStep(cfg, Config, v2.world, v2.local, prog, 3, script);
    AckedEnd(cfg, Config, v2.world.(store := v2.world.store[id := v2.local]), v2.local, prog, script);
  }

  lemma FileIs(cfg: Settings, r: Record)
    ensures
      var file := EnvFile(r.id, r.rdsEndpoint, r.rdsPassword, r.s3BucketName, "/run/spire/sockets/agent.sock",
                          cfg.exchangeAddr, "http://" + cfg.exchangeAddr + "/jwks");
      && EnvFileOf(cfg, r) == file && ConfigJsonOf(cfg, r) == ConfigJson(file, cfg.trustDomain)
      && EnvPath(cfg, r.id) == cfg.envDir + "/env-" + r.id[..8] + ".env"
  {
  }

  lemma HealthForward(cfg: Settings, w: World, id: EnvId, script: seq<Outcome>)
    requires Real(w, id) && Serve(cfg, w, id, Health, Forward, script).1 == Acked
    ensures Serve(cfg, w, id, Health, Forward, script).0 == w && !w.store[id].failAtHealth
  {
    hide Serve, Carry;
    ForwardStarts(cfg, w, id, Health, script);
    var prog := ForwardProgram(cfg, Health, w.store[id]);
    CarryStep(cfg, Health, w, w.store[id], prog, 1, script);
    AckedEnd(cfg, Health, w, w.store[id], prog, script);
  }

  /** Health, in either mode: what the record asks for, and in real mode whether the probe is answered; nothing is
      written. */
  lemma HealthAckedIff(cfg: Settings, w: World, id: EnvId, script: seq<Outcome>)
    requires id in w.store && |script| > 3 && script[0].Ok?
    ensures
      var r := w.store[id];
      Serve(cfg, w, id, Health, Forward, script)
      == (w, if !r.failAtHealth && (r.dryRun || script[2].Ok?) then Acked else Refused)
  {
    var r := w.store[id];
    HealthChecked(cfg, w, r, script);
    HealthAnswered(cfg, w, r, script);
  }

  lemma HealthChecked(cfg: Settings, w: World, r: Record, script: seq<Outcome>)
    requires |script| > 1
    ensures Carry(cfg, Health, w, r, [Check, Probe], 0, script) == Carry(cfg, Health, w, r, [Check, Probe], 1, script)
  {
  }

  lemma HealthAnswered(cfg: Settings, w: World, r: Record, script: seq<Outcome>)
    requires |script| > 3
    ensures Carry(cfg, Health, w, r, [Check, Probe], 1, script)
         == (w, if !r.failAtHealth && (r.dryRun || script[2].Ok?) then Acked else Refused)
  {
  }

  lemma RegistryForward(cfg: Settings, w: World, id: EnvId, script: seq<Outcome>)
    requires Real(w, id) && w.store[id].status != "ready" && Serve(cfg, w, id, Registry, Forward, script).1 == Acked
    ensures Serve(cfg, w, id, Registry, Forward, script).0
         == w.(store := w.store[id := w.store[id].(status := "ready")])
  {
    hide Serve, Carry;
    ForwardStarts(cfg, w, id, Registry, script);
    var r := w.store[id];
    var prog := ForwardProgram(cfg, Registry, r);
    assert prog == [Check, Fill, Put];
    CarryStep(cfg, Registry, w, r, prog, 1, script);
    var r' := r.(status := READY);
    CarryStep(cfg, Registry, w, r', prog, 2, script);
    AckedEnd(cfg, Registry, w.(store := w.store[id := r']), r', prog, script);
  }
}
