/** The compensations that follow Cascade's forward prefixes, and the theorem about the whole run. */
module Unwind {
  import opened Records
  import opened Ledgers
  import opened Handlers
  import opened Cascade

  lemma CalmStep(cfg: Settings, step: Step, w: World, r: Record, prog: seq<Action>, pc: nat, script: seq<Outcome>)
    requires Calm(script) && pc < |prog| <= 9 && Perform(cfg, step, prog[pc], w, r, script[pc + 1]).Go?
    ensures
      var v := Perform(cfg, step, prog[pc], w, r, script[pc + 1]);
      Carry(cfg, step, w, r, prog, pc, script) == Carry(cfg, step, v.world, v.local, prog, pc + 1, script)
  {
    hide Perform;
  }

  lemma CalmEnd(cfg: Settings, step: Step, w: World, r: Record, prog: seq<Action>, script: seq<Outcome>)
    requires Calm(script) && |prog| <= 9
    ensures Carry(cfg, step, w, r, prog, |prog|, script) == (w, Acked)
  {
  }

  /** The last two actions of most compensations: empty the group and store the record. */
  lemma WipeAndPut(cfg: Settings, step: Step, w: World, r: Record, prog: seq<Action>, pc: nat, script: seq<Outcome>)
    requires Calm(script) && pc + 2 == |prog| <= 9 && prog[pc] == Wipe && prog[pc + 1] == Put
             && Without(step, r).id == r.id
    ensures Carry(cfg, step, w, r, prog, pc, script) == (w.(store := w.store[r.id := Without(step, r)]), Acked)
  {
    hide Carry, Without;
    CalmStep(cfg, step, w, r, prog, pc, script);
    CalmStep(cfg, step, w, Without(step, r), prog, pc + 1, script);
    CalmEnd(cfg, step, w.(store := w.store[r.id := Without(step, r)]), Without(step, r), prog, script);
  }

  lemma WithoutKeepsId(step: Step, r: Record)
    ensures Without(step, r).id == r.id
  {
  }

  ghost predicate Unused(l: Ledger, key: Key) {
    forall k :: k in l ==> key !in Uses(l[k])
  }

  lemma RemoveGoes(cfg: Settings, step: Step, a: Action, w: World, r: Record, o: Outcome, key: Key)
    requires o.Ok? && a in {DeleteGroup, DeletePublicSubnet, DeletePrivateSubnet, DeleteVpc, DeleteBucket, DeletePolicy}
    requires Intent(cfg, a, r, w.ledger, o.value) == Remove(key) && !Skips(a, r)
    requires key in w.ledger && Unused(w.ledger, key) && (w.ledger[key].BucketItem? ==> w.ledger[key].versions == [])
    ensures Perform(cfg, step, a, w, r, o) == Go(w.(ledger := w.ledger - {key}), r)
  {
    hide Uses, With, Without, Pushed;
  }

  lemma VpcUndo(cfg: Settings, x: World, id: EnvId, script: seq<Outcome>)
    requires Real(x, id) && Calm(script)
    requires
      var r := x.store[id];
      var V, P, Q, G := VpcKey(r.vpcId), SubnetKey(r.publicSubnetId), SubnetKey(r.privateSubnetId),
                        GroupKey(r.securityGroupId);
      && r.vpcId != "" && r.publicSubnetId != "" && r.privateSubnetId != "" && r.securityGroupId != ""
      && r.publicSubnetId != r.privateSubnetId
      && V in x.ledger && P in x.ledger && Q in x.ledger && G in x.ledger
      && x.ledger[V].VpcItem? && x.ledger[P].SubnetItem? && x.ledger[Q].SubnetItem? && x.ledger[G].GroupItem?
      && Unused(x.ledger, P) && Unused(x.ledger, Q) && Unused(x.ledger, G) && Unused(x.ledger - {P} - {Q} - {G}, V)
    ensures
      var r := x.store[id];
      var V, P, Q, G := VpcKey(r.vpcId), SubnetKey(r.publicSubnetId), SubnetKey(r.privateSubnetId),
                        GroupKey(r.securityGroupId);
      Serve(cfg, x, id, Vpc, Compensate, script)
      == (x.(store := x.store[id := Without(Vpc, r)], ledger := x.ledger - {G} - {P} - {Q} - {V}), Acked)
  {
    hide Carry, Uses, Perform, Without;
    var r := x.store[id];
    var V, P, Q, G := VpcKey(r.vpcId), SubnetKey(r.publicSubnetId), SubnetKey(r.privateSubnetId),
                      GroupKey(r.securityGroupId);
    var prog := VPC_UNDO;
    assert Serve(cfg, x, id, Vpc, Compensate, script) == Carry(cfg, Vpc, x, r, prog, 0, script);
    RemoveGoes(cfg, Vpc, DeleteGroup, x, r, script[1], G);
    CalmStep(cfg, Vpc, x, r, prog, 0, script);
    var x1 := x.(ledger := x.ledger - {G});
    RemoveGoes(cfg, Vpc, DeletePublicSubnet, x1, r, script[2], P);
    CalmStep(cfg, Vpc, x1, r, prog, 1, script);
    var x2 := x1.(ledger := x1.ledger - {P});
    assert x2.ledger - {Q} == x.ledger - {P} - {Q} - {G};
    VpcUndoTail(cfg, x2, r, script);
  }

  lemma VpcUndoTail(cfg: Settings, w: World, r: Record, script: seq<Outcome>)
    requires Calm(script) && r.vpcId != "" && r.privateSubnetId != ""
    requires
      var V, Q := VpcKey(r.vpcId), SubnetKey(r.privateSubnetId);
      && Q in w.ledger && w.ledger[Q].SubnetItem? && Unused(w.ledger, Q)
      && V in w.ledger && w.ledger[V].VpcItem? && Unused(w.ledger - {Q}, V)
    ensures
      Carry(cfg, Vpc, w, r, VPC_UNDO, 2, script)
      == (w.(store := w.store[r.id := Without(Vpc, r)],
          ledger := w.ledger - {SubnetKey(r.privateSubnetId)} - {VpcKey(r.vpcId)}), Acked)
  {
    hide Carry, Uses, Unused, Perform, Without;
    var V, Q := VpcKey(r.vpcId), SubnetKey(r.privateSubnetId);
    RemoveGoes(cfg, Vpc, DeletePrivateSubnet, w, r, script[3], Q);
    CalmStep(cfg, Vpc, w, r, VPC_UNDO, 2, script);
    var x3 := w.(ledger := w.ledger - {Q});
    RemoveGoes(cfg, Vpc, DeleteVpc, x3, r, script[4], V);
    CalmStep(cfg, Vpc, x3, r, VPC_UNDO, 3, script);
    WithoutKeepsId(Vpc, r);
    WipeAndPut(cfg, Vpc, x3.(ledger := x3.ledger - {V}), r, VPC_UNDO, 4, script);
  }

  lemma RdsUndo(cfg: Settings, x: World, id: EnvId, script: seq<Outcome>)
    requires Real(x, id) && Calm(script)
    requires
      var r := x.store[id];
      var D := DbKey(r.rdsInstanceId);
      r.rdsInstanceId != "" && D in x.ledger && x.ledger[D].DbItem?
    ensures
      var r := x.store[id];
      Serve(cfg, x, id, Rds, Compensate, script)
      == (x.(store := x.store[id := Without(Rds, r)], ledger := x.ledger - {DbKey(r.rdsInstanceId)}), Acked)
  {
    hide Carry, Uses, Without, With, Pushed;
    var r := x.store[id];
    var D := DbKey(r.rdsInstanceId);
    var prog := RDS_UNDO;
    assert Serve(cfg, x, id, Rds, Compensate, script) == Carry(cfg, Rds, x, r, prog, 0, script);
    CalmStep(cfg, Rds, x, r, prog, 0, script);
    var x1 := x.(ledger := x.ledger[D := x.ledger[D].(dbState := Deleting)]);
    CalmStep(cfg, Rds, x1, r, prog, 1, script);
    var x2 := x.(ledger := x.ledger - {D});
    assert x1.ledger - {D} == x2.ledger;
    WithoutKeepsId(Rds, r);
    WipeAndPut(cfg, Rds, x2, r, prog, 2, script);
  }

  lemma Ec2Undo(cfg: Settings, x: World, id: EnvId, script: seq<Outcome>)
    requires Real(x, id) && Calm(script)
    requires
      var r := x.store[id];
      var I := InstanceKey(r.ec2InstanceId);
      r.ec2InstanceId != "" && I in x.ledger && x.ledger[I].InstanceItem?
    ensures
      var r := x.store[id];
      Serve(cfg, x, id, Ec2, Compensate, script)
      == (x.(store := x.store[id := Without(Ec2, r)], ledger := x.ledger - {InstanceKey(r.ec2InstanceId)}), Acked)
  {
    hide Carry, Uses, Without, With, Pushed;
    var r := x.store[id];
    var I := InstanceKey(r.ec2InstanceId);
    var prog := EC2_UNDO;
    assert Serve(cfg, x, id, Ec2, Compensate, script) == Carry(cfg, Ec2, x, r, prog, 0, script);
    CalmStep(cfg, Ec2, x, r, prog, 0, script);
    var x1 := x.(ledger := x.ledger[I := x.ledger[I].(instanceState := ShuttingDown)]);
    CalmStep(cfg, Ec2, x1, r, prog, 1, script);
    var x2 := x.(ledger := x.ledger - {I});
    assert x1.ledger - {I} == x2.ledger;
    WithoutKeepsId(Ec2, r);
    WipeAndPut(cfg, Ec2, x2, r, prog, 2, script);
  }

  lemma NothingUsesBuckets(l: Ledger, k: Key)
    requires k.BucketKey? || k.PolicyKey?
    ensures Unused(l, k)
  {
  }

  /** Whatever versions the bucket holds, the purge comes first, so the bucket delete is accepted. */
  lemma S3Undo(cfg: Settings, x: World, id: EnvId, script: seq<Outcome>)
    requires Real(x, id) && Calm(script)
    requires
      var r := x.store[id];
      var B := BucketKey(r.s3BucketName);
      r.s3BucketName != "" && B in x.ledger && x.ledger[B].BucketItem?
    ensures
      var r := x.store[id];
      Serve(cfg, x, id, S3, Compensate, script)
      == (x.(store := x.store[id := Without(S3, r)], ledger := x.ledger - {BucketKey(r.s3BucketName)}), Acked)
  {
    hide Carry, Perform, Without;
    var r := x.store[id];
    var B := BucketKey(r.s3BucketName);
    var prog := S3_UNDO;
    assert Serve(cfg, x, id, S3, Compensate, script) == Carry(cfg, S3, x, r, prog, 0, script);
    PurgeGoes(cfg, x, r, script[1]);
    CalmStep(cfg, S3, x, r, prog, 0, script);
    var x1 := x.(ledger := x.ledger[B := x.ledger[B].(versions := [])]);
    NothingUsesBuckets(x1.ledger, B);
    RemoveGoes(cfg, S3, DeleteBucket, x1, r, script[2], B);
    CalmStep(cfg, S3, x1, r, prog, 1, script);
    var x2 := x.(ledger := x.ledger - {B});
    assert x1.ledger - {B} == x2.ledger;
    WithoutKeepsId(S3, r);
    WipeAndPut(cfg, S3, x2, r, prog, 2, script);
  }

  lemma PurgeGoes(cfg: Settings, w: World, r: Record, o: Outcome)
    requires o.Ok? && BucketKey(r.s3BucketName) in w.ledger && w.ledger[BucketKey(r.s3BucketName)].BucketItem?
    ensures
      var B := BucketKey(r.s3BucketName);
      Perform(cfg, S3, PurgeVersions, w, r, o) == Go(w.(ledger := w.ledger[B := w.ledger[B].(versions := [])]), r)
  {
  }

  lemma ReloadGoes(cfg: Settings, w: World, r: Record, o: Outcome)
    requires o.Ok?
    ensures Perform(cfg, Identity, ReloadPolicies, w, r, o) == Go(w, r)
  {
  }

  lemma IdentityUndo(cfg: Settings, x: World, id: EnvId, script: seq<Outcome>)
    requires id in x.store && x.store[id].id == id && Calm(script) && cfg.connected
    requires
      var r := x.store[id];
      var K := PolicyKey(r.svidExchangePolicyName);
      r.svidExchangePolicyName != "" && K in x.ledger && (x.ledger[K].BucketItem? ==> x.ledger[K].versions == [])
    ensures
      var r := x.store[id];
      Serve(cfg, x, id, Identity, Compensate, script)
      == (x.(store := x.store[id := Without(Identity, r)], ledger := x.ledger - {PolicyKey(r.svidExchangePolicyName)}),
          Acked)
  {
    hide Carry, Perform, Without;
    var r := x.store[id];
    var K := PolicyKey(r.svidExchangePolicyName);
    var prog := IDENTITY_UNDO;
    assert Serve(cfg, x, id, Identity, Compensate, script) == Carry(cfg, Identity, x, r, prog, 0, script);
    NothingUsesBuckets(x.ledger, K);
    RemoveGoes(cfg, Identity, DeletePolicy, x, r, script[1], K);
    CalmStep(cfg, Identity, x, r, prog, 0, script);
    var x1 := x.(ledger := x.ledger - {K});
    ReloadGoes(cfg, x1, r, script[2]);
    CalmStep(cfg, Identity, x1, r, prog, 1, script);
    WithoutKeepsId(Identity, r);
    WipeAndPut(cfg, Identity, x1, r, prog, 2, script);
  }

  lemma RefusesAt(cfg: Settings, w: World, r: Record, prog: seq<Action>, pc: nat, script: seq<Outcome>)
    requires pc < |prog| && prog[pc] == Refuse
    ensures Carry(cfg, Identity, w, r, prog, pc, script) == (w, if pc + 1 < |script| then Refused else NoReply)
  {
  }

  /** Without a connection a real environment's policy is neither made nor given up: every request is an error and
      changes nothing. */
  lemma UnconnectedRefuses(cfg: Settings, w: World, id: EnvId, dir: Direction, script: seq<Outcome>)
    requires Real(w, id) && !cfg.connected && (dir == Forward <==> w.store[id].svidExchangePolicyName == "")
    requires |script| > 2
    ensures Serve(cfg, w, id, Identity, dir, script) == (w, Refused)
  {
    hide Carry, Perform;
    var r := w.store[id];
    if script[0].Ok? {
      var prog := Program(cfg, Identity, dir, r);
      if dir == Forward {
        assert prog == [Check, Refuse];
        UncheckedGoes(cfg, w, r, prog, script);
        RefusesAt(cfg, w, r, prog, 1, script);
      } else {
        assert prog == [Refuse];
        RefusesAt(cfg, w, r, prog, 0, script);
      }
    }
  }

  lemma UncheckedGoes(cfg: Settings, w: World, r: Record, prog: seq<Action>, script: seq<Outcome>)
    requires |prog| > 0 && prog[0] == Check && |script| > 1 && r.svidExchangePolicyName == ""
    ensures Carry(cfg, Identity, w, r, prog, 0, script) == Carry(cfg, Identity, w, r, prog, 1, script)
  {
  }

  /** The newest config.json is hidden and the file removed, each only if the record names it. */
  lemma ConfigUndo(cfg: Settings, x: World, id: EnvId, script: seq<Outcome>)
    requires Real(x, id) && Calm(script)
    requires
      var r := x.store[id];
      var B := BucketKey(r.s3BucketName);
      r.s3BucketName != "" ==> B in x.ledger && x.ledger[B].BucketItem?
    ensures
      var r := x.store[id];
      var B := BucketKey(r.s3BucketName);
      var hidden := if r.s3BucketName == "" then x.ledger else x.ledger[B := Pushed(x.ledger[B], DeleteMarker)];
      Serve(cfg, x, id, Config, Compensate, script)
      == (x.(store := x.store[id := Without(Config, r)],
          ledger := if r.localEnvPath == "" then hidden else hidden - {FileKey(r.localEnvPath)}), Acked)
  {
    hide Carry, Perform, Pushed;
    var r := x.store[id];
    var B := BucketKey(r.s3BucketName);
    var prog := [DeleteConfig, RemoveEnvFile, Put];
    assert Serve(cfg, x, id, Config, Compensate, script) == Carry(cfg, Config, x, r, prog, 0, script);
    var hidden := if r.s3BucketName == "" then x.ledger else x.ledger[B := Pushed(x.ledger[B], DeleteMarker)];
    HideGoes(cfg, x, r, script[1]);
    CalmStep(cfg, Config, x, r, prog, 0, script);
    var x1 := x.(ledger := hidden);
    RemoveFileGoes(cfg, x1, r, script[2]);
    CalmStep(cfg, Config, x1, r, prog, 1, script);
    var x2 := x1.(ledger := if r.localEnvPath == "" then hidden else hidden - {FileKey(r.localEnvPath)});
    var r' := r.(localEnvPath := "");
    PutGoes(cfg, Config, x2, r', script[3]);
    CalmStep(cfg, Config, x2, r', prog, 2, script);
    CalmEnd(cfg, Config, x2.(store := x2.store[id := r']), r', prog, script);
  }

  lemma HideGoes(cfg: Settings, w: World, r: Record, o: Outcome)
    requires o.Ok?
    requires r.s3BucketName != "" ==>
               BucketKey(r.s3BucketName) in w.ledger && w.ledger[BucketKey(r.s3BucketName)].BucketItem?
    ensures
      var B := BucketKey(r.s3BucketName);
      Perform(cfg, Config, DeleteConfig, w, r, o)
      == Go(if r.s3BucketName == "" then w else w.(ledger := w.ledger[B := Pushed(w.ledger[B], DeleteMarker)]), r)
  {
    hide With, Without, Pushed, Uses;
  }

  lemma RemoveFileGoes(cfg: Settings, w: World, r: Record, o: Outcome)
    requires o.Ok?
    ensures Perform(cfg, Config, RemoveEnvFile, w, r, o)
         == Go(if r.localEnvPath == "" then w else w.(ledger := w.ledger - {FileKey(r.localEnvPath)}),
               r.(localEnvPath := ""))
  {
    hide With, Without, Uses;
  }

  lemma PutGoes(cfg: Settings, step: Step, w: World, r: Record, o: Outcome)
    requires o.Ok?
    ensures Perform(cfg, step, Put, w, r, o) == Go(w.(store := w.store[r.id := r]), r)
  {
  }

  lemma HealthUndo(cfg: Settings, x: World, id: EnvId, script: seq<Outcome>)
    requires Real(x, id) && Calm(script)
    ensures Serve(cfg, x, id, Health, Compensate, script) == (x, Acked)
  {
  }

  lemma RegistryUndo(cfg: Settings, x: World, id: EnvId, script: seq<Outcome>)
    requires Real(x, id) && Calm(script)
    ensures Serve(cfg, x, id, Registry, Compensate, script)
         == (x.(store := x.store[id := x.store[id].(status := "destroyed")]), Acked)
  {
    hide Carry;
    WipeAndPut(cfg, Registry, x, x.store[id], [Wipe, Put], 0, script);
  }

  // ----- one step and its undoing, from a world that differs in bucket contents only -----

  /** Equal but for the versions held in one bucket: config uploads leave versions that config's compensation does not
      take back. */
  ghost predicate Alike(l1: Ledger, l2: Ledger, b: string) {
    && (forall k :: k in l1 <==> k in l2)
    && (forall k :: k in l1 && k in l2 ==> AlikeItem(l1[k], l2[k], k == BucketKey(b)))
  }

  predicate AlikeItem(i: Item, j: Item, bucket: bool) {
    i == j || (bucket && i.BucketItem? && j.BucketItem? && i.versioned == j.versioned)
  }

  /** The environment before step k of a first attempt. */
  ghost predicate Before(cfg: Settings, w: World, id: EnvId, k: nat)
    requires k <= |STEPS|
  {
    && Real(w, id) && Consistent(w)
    && var r := w.store[id];
    && (forall i | k <= i < 6 :: r == Blank(STEPS[i], r))
    && r.status != READY
    && (k > 3 ==> r.s3BucketName == BucketName(id))
    && (k <= 5 ==> FileKey(EnvPath(cfg, id)) !in w.ledger)
  }

  ghost predicate After(x: World, w: World, id: EnvId, st: string) {
    && id in w.store
    && x.store == w.store[id := w.store[id].(status := st)]
    && Alike(x.ledger, w.ledger, BucketName(id))
  }

  ghost predicate Undone(y: World, a: Answer, w: World, id: EnvId, st: string) {
    a == Acked && After(y, w, id, st)
  }

  lemma VpcRoundTrip(cfg: Settings, w: World, id: EnvId, script: seq<Outcome>, x: World, cscript: seq<Outcome>,
                     st: string)
    requires Before(cfg, w, id, 0) && Serve(cfg, w, id, Vpc, Forward, script).1 == Acked && Calm(cscript)
    requires After(x, Serve(cfg, w, id, Vpc, Forward, script).0, id, st)
    ensures var (y, a) := Serve(cfg, x, id, Vpc, Compensate, cscript); Undone(y, a, w, id, st)
  {
    hide Serve, BucketName, Uses, Unused, Alike, Consistent, VpcNetwork;
    assert w.store[id] == Blank(STEPS[0], w.store[id]);
    VpcForward(cfg, w, id, script);
    var w' := Serve(cfg, w, id, Vpc, Forward, script).0;
    VpcUnused(w, w', id, x);
    VpcThere(w, w', id, x);
    UnusedFour(x, id);
    VpcUndo(cfg, x, id, cscript);
    VpcGone(w, w'.store[id], x.ledger, BucketName(id));
  }

  lemma VpcGone(w: World, r: Record, l: Ledger, b: string)
    requires
      var V, P, Q, G := VpcKey(r.vpcId), SubnetKey(r.publicSubnetId), SubnetKey(r.privateSubnetId),
                        GroupKey(r.securityGroupId);
      AllNew(w, {V, P, Q, G}) && Alike(l, VpcNetwork(w.ledger, r), b)
    ensures
      var V, P, Q, G := VpcKey(r.vpcId), SubnetKey(r.publicSubnetId), SubnetKey(r.privateSubnetId),
                        GroupKey(r.securityGroupId);
      Alike(l - {G} - {P} - {Q} - {V}, w.ledger, b)
  {
  }

  lemma UnusedFour(x: World, id: EnvId)
    requires id in x.store
    requires
      var r := x.store[id];
      var V, P, Q, G := VpcKey(r.vpcId), SubnetKey(r.publicSubnetId), SubnetKey(r.privateSubnetId),
                        GroupKey(r.securityGroupId);
      forall k :: k in x.ledger ==>
                    && P !in Uses(x.ledger[k]) && Q !in Uses(x.ledger[k]) && G !in Uses(x.ledger[k])
                    && (k !in {P, Q, G} ==> V !in Uses(x.ledger[k]))
    ensures
      var r := x.store[id];
      var V, P, Q, G := VpcKey(r.vpcId), SubnetKey(r.publicSubnetId), SubnetKey(r.privateSubnetId),
                        GroupKey(r.securityGroupId);
      Unused(x.ledger, P) && Unused(x.ledger, Q) && Unused(x.ledger, G) && Unused(x.ledger - {P} - {Q} - {G}, V)
  {
  }

  /** The four new resources are still there, and of their kinds. */
  lemma VpcThere(w: World, w': World, id: EnvId, x: World)
    requires id in w'.store && id in x.store && x.store[id] == w'.store[id].(status := x.store[id].status)
    requires Alike(x.ledger, w'.ledger, BucketName(id))
    requires
      var r := w'.store[id];
      var V, P, Q, G := VpcKey(r.vpcId), SubnetKey(r.publicSubnetId), SubnetKey(r.privateSubnetId),
                        GroupKey(r.securityGroupId);
      P != Q && w'.ledger == VpcNetwork(w.ledger, r)
    ensures
      var r := x.store[id];
      var V, P, Q, G := VpcKey(r.vpcId), SubnetKey(r.publicSubnetId), SubnetKey(r.privateSubnetId),
                        GroupKey(r.securityGroupId);
      && V in x.ledger && P in x.ledger && Q in x.ledger && G in x.ledger
      && x.ledger[V].VpcItem? && x.ledger[P].SubnetItem? && x.ledger[Q].SubnetItem? && x.ledger[G].GroupItem?
  {
    hide BucketName;
    var r := x.store[id];
    var V, P, Q, G := VpcKey(r.vpcId), SubnetKey(r.publicSubnetId), SubnetKey(r.privateSubnetId),
                      GroupKey(r.securityGroupId);
    assert V in w'.ledger && P in w'.ledger && Q in w'.ledger && G in w'.ledger;
    assert AlikeItem(x.ledger[V], w'.ledger[V], false) && AlikeItem(x.ledger[P], w'.ledger[P], false);
    assert AlikeItem(x.ledger[Q], w'.ledger[Q], false) && AlikeItem(x.ledger[G], w'.ledger[G], false);
  }

  /** Nothing outside the four new resources uses any of them. */
  lemma VpcUnused(w: World, w': World, id: EnvId, x: World)
    requires Consistent(w) && id in w'.store && id in x.store
             && x.store[id] == w'.store[id].(status := x.store[id].status)
    requires Alike(x.ledger, w'.ledger, BucketName(id))
    requires
      var r := w'.store[id];
      var V, P, Q, G := VpcKey(r.vpcId), SubnetKey(r.publicSubnetId), SubnetKey(r.privateSubnetId),
                        GroupKey(r.securityGroupId);
      AllNew(w, {V, P, Q, G}) && w'.ledger == VpcNetwork(w.ledger, r)
    ensures
      var r := x.store[id];
      var V, P, Q, G := VpcKey(r.vpcId), SubnetKey(r.publicSubnetId), SubnetKey(r.privateSubnetId),
                        GroupKey(r.securityGroupId);
      forall k :: k in x.ledger ==>
                    && P !in Uses(x.ledger[k]) && Q !in Uses(x.ledger[k]) && G !in Uses(x.ledger[k])
                    && (k !in {P, Q, G} ==> V !in Uses(x.ledger[k]))
  {
    hide BucketName;
    forall k | k in x.ledger
      ensures Uses(x.ledger[k]) == Uses(w'.ledger[k])
    {
      assert AlikeItem(x.ledger[k], w'.ledger[k], k == BucketKey(BucketName(id)));
    }
  }

  lemma RdsRoundTrip(cfg: Settings, w: World, id: EnvId, script: seq<Outcome>, x: World, cscript: seq<Outcome>,
                     st: string)
    requires Before(cfg, w, id, 1) && Serve(cfg, w, id, Rds, Forward, script).1 == Acked && Calm(cscript)
    requires After(x, Serve(cfg, w, id, Rds, Forward, script).0, id, st)
    ensures var (y, a) := Serve(cfg, x, id, Rds, Compensate, cscript); Undone(y, a, w, id, st)
  {
    hide Serve, BucketName, DbName;
    assert w.store[id] == Blank(STEPS[1], w.store[id]);
    RdsForward(cfg, w, id, script);
    RdsUndo(cfg, x, id, cscript);
  }

  lemma Ec2RoundTrip(cfg: Settings, w: World, id: EnvId, script: seq<Outcome>, x: World, cscript: seq<Outcome>,
                     st: string)
    requires Before(cfg, w, id, 2) && Serve(cfg, w, id, Ec2, Forward, script).1 == Acked && Calm(cscript)
    requires After(x, Serve(cfg, w, id, Ec2, Forward, script).0, id, st)
    ensures var (y, a) := Serve(cfg, x, id, Ec2, Compensate, cscript); Undone(y, a, w, id, st)
  {
    hide Serve, BucketName;
    assert w.store[id] == Blank(STEPS[2], w.store[id]);
    Ec2Forward(cfg, w, id, script);
    Ec2Undo(cfg, x, id, cscript);
  }

  lemma S3RoundTrip(cfg: Settings, w: World, id: EnvId, script: seq<Outcome>, x: World, cscript: seq<Outcome>,
                    st: string)
    requires Before(cfg, w, id, 3) && Serve(cfg, w, id, S3, Forward, script).1 == Acked && Calm(cscript)
    requires After(x, Serve(cfg, w, id, S3, Forward, script).0, id, st)
    ensures var (y, a) := Serve(cfg, x, id, S3, Compensate, cscript); Undone(y, a, w, id, st)
  {
    hide Serve, BucketName;
    assert w.store[id] == Blank(STEPS[3], w.store[id]);
    S3Forward(cfg, w, id, script);
    S3Undo(cfg, x, id, cscript);
  }

  lemma IdentityRoundTrip(cfg: Settings, w: World, id: EnvId, script: seq<Outcome>, x: World, cscript: seq<Outcome>,
                          st: string)
    requires Before(cfg, w, id, 4) && Serve(cfg, w, id, Identity, Forward, script).1 == Acked && Calm(cscript)
    requires After(x, Serve(cfg, w, id, Identity, Forward, script).0, id, st)
    ensures var (y, a) := Serve(cfg, x, id, Identity, Compensate, cscript); Undone(y, a, w, id, st)
  {
    hide Serve, BucketName, PolicyName, PolicyOf;
    assert w.store[id] == Blank(STEPS[4], w.store[id]);
    IdentityForward(cfg, w, id, script);
    IdentityUndo(cfg, x, id, cscript);
  }

  lemma ConfigRoundTrip(cfg: Settings, w: World, id: EnvId, script: seq<Outcome>, x: World, cscript: seq<Outcome>,
                        st: string)
    requires Before(cfg, w, id, 5) && Serve(cfg, w, id, Config, Forward, script).1 == Acked && Calm(cscript)
    requires After(x, Serve(cfg, w, id, Config, Forward, script).0, id, st)
    ensures var (y, a) := Serve(cfg, x, id, Config, Compensate, cscript); Undone(y, a, w, id, st)
  {
    hide Serve, BucketName, EnvPath, EnvFileOf, ConfigJsonOf, Short, Consistent;
    assert w.store[id] == Blank(STEPS[5], w.store[id]);
    ConfigForward(cfg, w, id, script);
    ConfigUndo(cfg, x, id, cscript);
  }

  lemma HealthRoundTrip(cfg: Settings, w: World, id: EnvId, script: seq<Outcome>, x: World, cscript: seq<Outcome>,
                        st: string)
    requires Before(cfg, w, id, 6) && Serve(cfg, w, id, Health, Forward, script).1 == Acked && Calm(cscript)
    requires After(x, Serve(cfg, w, id, Health, Forward, script).0, id, st)
    ensures var (y, a) := Serve(cfg, x, id, Health, Compensate, cscript); Undone(y, a, w, id, st)
  {
    hide Serve, Alike;
    HealthForward(cfg, w, id, script);
    HealthUndo(cfg, x, id, cscript);
  }

  lemma RegistryRoundTrip(cfg: Settings, w: World, id: EnvId, script: seq<Outcome>, x: World, cscript: seq<Outcome>,
                          st: string)
    requires Before(cfg, w, id, 7) && Serve(cfg, w, id, Registry, Forward, script).1 == Acked && Calm(cscript)
    requires After(x, Serve(cfg, w, id, Registry, Forward, script).0, id, st)
    ensures var (y, a) := Serve(cfg, x, id, Registry, Compensate, cscript); Undone(y, a, w, id, DESTROYED)
  {
    hide Serve, Alike, BucketName;
    RegistryForward(cfg, w, id, script);
    RegistryUndo(cfg, x, id, cscript);
  }

  /** A fault-free compensation is acknowledged, and any that is acknowledged gives back what Execute found. */
  lemma RoundTrip(cfg: Settings, w: World, id: EnvId, k: nat, script: seq<Outcome>, x: World, cscript: seq<Outcome>,
                  st: string)
    requires k < |STEPS| && Before(cfg, w, id, k) && Serve(cfg, w, id, STEPS[k], Forward, script).1 == Acked
    requires After(x, Serve(cfg, w, id, STEPS[k], Forward, script).0, id, st)
    ensures
      var (y, a) := Serve(cfg, x, id, STEPS[k], Compensate, cscript);
      && (Calm(cscript) ==> a == Acked)
      && (a == Acked ==> After(y, w, id, if k == 7 then DESTROYED else st))
  {
    hide Serve, Before, After, Calm, FAULTLESS;
    if Calm(cscript) { CalmRoundTrip(cfg, w, id, k, script, x, cscript, st); }
    if Serve(cfg, x, id, STEPS[k], Compensate, cscript).1 == Acked {
      assert Calm(FAULTLESS) by { FaultlessIsCalm(); }
      AckedUndoIsCalm(cfg, x, id, STEPS[k], cscript, FAULTLESS);
      CalmRoundTrip(cfg, w, id, k, script, x, FAULTLESS, st);
    }
  }

  const FAULTLESS: seq<Outcome> := seq(11, _ => Ok(""))

  lemma FaultlessIsCalm()
    ensures Calm(FAULTLESS)
  {
  }

  lemma CalmRoundTrip(cfg: Settings, w: World, id: EnvId, k: nat, script: seq<Outcome>, x: World, cscript: seq<Outcome>,
                      st: string)
    requires k < |STEPS| && Before(cfg, w, id, k) && Serve(cfg, w, id, STEPS[k], Forward, script).1 == Acked
             && Calm(cscript)
    requires After(x, Serve(cfg, w, id, STEPS[k], Forward, script).0, id, st)
    ensures
      var (y, a) := Serve(cfg, x, id, STEPS[k], Compensate, cscript);
      Undone(y, a, w, id, if k == 7 then DESTROYED else st)
  {
    hide Serve, Before, After, Undone;
    match STEPS[k] {
      case Vpc => VpcRoundTrip(cfg, w, id, script, x, cscript, st);
      case Rds => RdsRoundTrip(cfg, w, id, script, x, cscript, st);
      case Ec2 => Ec2RoundTrip(cfg, w, id, script, x, cscript, st);
      case S3 => S3RoundTrip(cfg, w, id, script, x, cscript, st);
      case Identity => IdentityRoundTrip(cfg, w, id, script, x, cscript, st);
      case Config => ConfigRoundTrip(cfg, w, id, script, x, cscript, st);
      case Health => HealthRoundTrip(cfg, w, id, script, x, cscript, st);
      case Registry => RegistryRoundTrip(cfg, w, id, script, x, cscript, st);
    }
  }

  // ----- an acknowledged compensation met no fault that matters -----

  /** The actions compensations are made of. */
  predicate Undoes(a: Action) {
    match a
    case Wipe | Put | Refuse => true
    case DeleteGroup | DeletePublicSubnet | DeletePrivateSubnet | DeleteVpc => true
    case DeleteDb | WaitDbDeleted | Terminate | WaitTerminated => true
    case PurgeVersions | DeleteBucket | DeletePolicy | ReloadPolicies | DeleteConfig | RemoveEnvFile => true
    case _ => false
  }

  lemma UndoProgramUndoes(cfg: Settings, step: Step, r: Record)
    ensures |CompensateProgram(cfg, step, r)| <= 9 && forall a | a in CompensateProgram(cfg, step, r) :: Undoes(a)
  {
  }

  /** Whatever identifier the answer carries, the request asks for the same and nothing of the answer is kept. */
  lemma UndoIgnoresValue(cfg: Settings, a: Action, r: Record, l: Ledger, u: string, v: string)
    requires Undoes(a)
    ensures Intent(cfg, a, r, l, u) == Intent(cfg, a, r, l, v) && Updated(cfg, a, r, l, u) == Updated(cfg, a, r, l, v)
  {
    hide DbName, BucketName, PolicyName, EnvPath, EnvFileOf, ConfigJsonOf, PolicyOf, Short, Pushed, AppSpiffeId,
      DbProxySpiffeId;
  }

  lemma UndoGoesAlike(cfg: Settings, step: Step, a: Action, w: World, r: Record, o: Outcome, calm: Outcome)
    requires Undoes(a) && calm.Ok? && Perform(cfg, step, a, w, r, o).Go?
    ensures Perform(cfg, step, a, w, r, calm) == Perform(cfg, step, a, w, r, o)
  {
    hide Intent, Updated, With, Without, AlreadyDone, AsksCloud, Legal, Apply, Skips, PurgeSome;
    if o.Ok? { UndoIgnoresValue(cfg, a, r, w.ledger, o.value, calm.value); }
  }

  lemma {:induction false} AckedCarryIsCalm(cfg: Settings, step: Step, w: World, r: Record, prog: seq<Action>, pc: nat,
                                            script: seq<Outcome>, calm: seq<Outcome>)
    requires pc <= |prog| <= 9 && (forall a | a in prog :: Undoes(a)) && Calm(calm)
    requires Carry(cfg, step, w, r, prog, pc, script).1 == Acked
    ensures Carry(cfg, step, w, r, prog, pc, calm) == Carry(cfg, step, w, r, prog, pc, script)
    decreases |prog| - pc
  {
    hide Perform, Undoes;
    if pc < |prog| {
      assert Undoes(prog[pc]);
      assert prog[pc] != Check by { CheckIsNoUndo(); }
      CarryStep(cfg, step, w, r, prog, pc, script);
      UndoGoesAlike(cfg, step, prog[pc], w, r, script[pc + 1], calm[pc + 1]);
      var v := Perform(cfg, step, prog[pc], w, r, script[pc + 1]);
      AckedCarryIsCalm(cfg, step, v.world, v.local, prog, pc + 1, script, calm);
    }
  }

  lemma CheckIsNoUndo()
    ensures !Undoes(Check)
  {
  }

  lemma AckedUndoIsCalm(cfg: Settings, w: World, id: EnvId, step: Step, script: seq<Outcome>, calm: seq<Outcome>)
    requires Serve(cfg, w, id, step, Compensate, script).1 == Acked && Calm(calm)
    ensures Serve(cfg, w, id, step, Compensate, calm) == Serve(cfg, w, id, step, Compensate, script)
  {
    hide Carry, CompensateProgram, Undoes;
    assert |script| > 0 && script[0].Ok? && id in w.store;
    UndoProgramUndoes(cfg, step, w.store[id]);
    AckedCarryIsCalm(cfg, step, w, w.store[id], CompensateProgram(cfg, step, w.store[id]), 0, script, calm);
  }

  // ----- consistency is kept -----

  lemma ApplyConsistent(w: World, op: Op, tag: string)
    requires Consistent(w) && Legal(w, op)
    requires op.Change? ==> op.key in w.ledger && Uses(op.item) == Uses(w.ledger[op.key])
    requires op.Overwrite? ==> !CloudNamed(op.key) && Uses(op.item) == {}
    ensures Consistent(Apply(w, op, tag))
  {
    var w' := Apply(w, op, tag);
    forall k | k in w'.ledger ensures (CloudNamed(k) ==> k in w'.issued) && Uses(w'.ledger[k]) <= w'.issued.Keys {
      if op.Create? && k == op.key {
        forall u | u in Uses(op.item) ensures u in w'.issued { assert u in w.ledger && CloudNamed(u); }
      }
    }
  }

  lemma IntentKeepsUses(cfg: Settings, a: Action, r: Record, l: Ledger, value: string)
    ensures
      var op := Intent(cfg, a, r, l, value);
      && (op.Change? ==> op.key in l && Uses(op.item) == Uses(l[op.key]))
      && (op.Overwrite? ==> !CloudNamed(op.key) && Uses(op.item) == {})
  {
    hide EnvFileOf, ConfigJsonOf, EnvPath, DbName, BucketName, PolicyName, PolicyOf;
  }

  lemma AttemptConsistent(cfg: Settings, a: Action, w: World, r: Record, o: Outcome)
    requires Consistent(w)
    ensures Consistent(Attempt(cfg, a, w, r, o).world)
  {
    hide Intent, Legal, Apply, Consistent, Updated;
    if (o.Ok? || o.Lost?) && Legal(w, Intent(cfg, a, r, w.ledger, o.value)) {
      IntentKeepsUses(cfg, a, r, w.ledger, o.value);
      ApplyConsistent(w, Intent(cfg, a, r, w.ledger, o.value), Short(r.id));
    }
  }

  lemma PerformConsistent(cfg: Settings, step: Step, a: Action, w: World, r: Record, o: Outcome)
    requires Consistent(w)
    ensures Consistent(Perform(cfg, step, a, w, r, o).world)
  {
    hide Attempt, With, Without, Updated, AlreadyDone, AsksCloud, Skips;
    AttemptConsistent(cfg, a, w, r, o);
  }

  lemma {:induction false} CarryConsistent(cfg: Settings, step: Step, w: World, r: Record, prog: seq<Action>, pc: nat,
                                           script: seq<Outcome>)
    requires Consistent(w) && pc <= |prog|
    ensures Consistent(Carry(cfg, step, w, r, prog, pc, script).0)
    decreases |prog| - pc
  {
    hide Perform, Consistent;
    if pc < |prog| && pc + 1 < |script| {
      PerformConsistent(cfg, step, prog[pc], w, r, script[pc + 1]);
      var v := Perform(cfg, step, prog[pc], w, r, script[pc + 1]);
      if v.Go? { CarryConsistent(cfg, step, v.world, v.local, prog, pc + 1, script); }
    }
  }

  lemma ServeConsistent(cfg: Settings, w: World, id: EnvId, step: Step, dir: Direction, script: seq<Outcome>)
    requires Consistent(w)
    ensures Consistent(Serve(cfg, w, id, step, dir, script).0)
  {
    hide Carry, Consistent, Program;
    if |script| > 0 && script[0].Ok? && id in w.store {
      CarryConsistent(cfg, step, w, w.store[id], Program(cfg, step, dir, w.store[id]), 0, script);
    }
  }

  lemma BlankElsewhere(s: Step, t: Step, r: Record, r': Record)
    requires s != t && r == Blank(s, r) && AgreeOutside(t, r, r')
    ensures s != Registry ==> r' == Blank(s, r')
  {
  }

  /** An acknowledged step leaves the later ones as they were. */
  lemma ForwardKeepsBefore(cfg: Settings, w: World, id: EnvId, k: nat, script: seq<Outcome>)
    requires k < 7 && Before(cfg, w, id, k) && Serve(cfg, w, id, STEPS[k], Forward, script).1 == Acked
    ensures
      var w' := Serve(cfg, w, id, STEPS[k], Forward, script).0;
      Before(cfg, w', id, k + 1) && w'.store[id].status == w.store[id].status
  {
    hide Serve, BucketName, EnvPath, EnvFileOf, ConfigJsonOf, DbName, PolicyName, PolicyOf, Consistent;
    ServeConsistent(cfg, w, id, STEPS[k], Forward, script);
    var r := w.store[id];
    if k < 6 { assert r == Blank(STEPS[k], r); }
    match STEPS[k] {
      case Vpc => VpcForward(cfg, w, id, script);
      case Rds => RdsForward(cfg, w, id, script);
      case Ec2 => Ec2Forward(cfg, w, id, script);
      case S3 => S3Forward(cfg, w, id, script);
      case Identity => IdentityForward(cfg, w, id, script);
      case Config => ConfigForward(cfg, w, id, script);
      case Health => HealthForward(cfg, w, id, script);
    }
    var w' := Serve(cfg, w, id, STEPS[k], Forward, script).0;
    forall i | k + 1 <= i < 6 ensures w'.store[id] == Blank(STEPS[i], w'.store[id]) {
      assert r == Blank(STEPS[i], r);
      BlankElsewhere(STEPS[i], STEPS[k], r, w'.store[id]);
    }
  }

  // ----- the whole run -----

  function ForwardTo(cfg: Settings, w: World, id: EnvId, scripts: seq<seq<Outcome>>, k: nat): World
    requires k <= |scripts| && k <= |STEPS|
  {
    if k == 0 then w else Serve(cfg, ForwardTo(cfg, w, id, scripts, k - 1), id, STEPS[k - 1], Forward, scripts[k - 1]).0
  }

  predicate ForwardAllAcked(cfg: Settings, w: World, id: EnvId, scripts: seq<seq<Outcome>>, k: nat)
    requires k <= |scripts| && k <= |STEPS|
  {
    forall i | 0 <= i < k :: Serve(cfg, ForwardTo(cfg, w, id, scripts, i), id, STEPS[i], Forward, scripts[i]).1 == Acked
  }

  /** Steps k - 1, ..., 0 compensated; false as soon as one of them is not acknowledged. */
  function UndoFrom(cfg: Settings, x: World, id: EnvId, scripts: seq<seq<Outcome>>, k: nat): (World, bool)
    requires k <= |scripts| && k <= |STEPS|
    decreases k
  {
    if k == 0 then (x, true)
    else
      var (y, a) := Serve(cfg, x, id, STEPS[k - 1], Compensate, scripts[k - 1]);
      if a != Acked then (y, false) else UndoFrom(cfg, y, id, scripts, k - 1)
  }

  lemma BeforeInStore(cfg: Settings, w: World, id: EnvId, k: nat)
    requires k <= |STEPS| && Before(cfg, w, id, k)
    ensures id in w.store
  {
  }

  lemma {:induction false} PrefixReaches(cfg: Settings, w: World, id: EnvId, scripts: seq<seq<Outcome>>, k: nat)
    requires k <= |scripts| && k <= 7 && Before(cfg, w, id, 0) && ForwardAllAcked(cfg, w, id, scripts, k)
    ensures
      var x := ForwardTo(cfg, w, id, scripts, k);
      Before(cfg, x, id, k) && id in w.store && id in x.store && x.store[id].status == w.store[id].status
  {
    BeforeInStore(cfg, w, id, 0);
    if k > 0 {
      hide Serve, Before;
      PrefixReaches(cfg, w, id, scripts, k - 1);
      ForwardKeepsBefore(cfg, ForwardTo(cfg, w, id, scripts, k - 1), id, k - 1, scripts[k - 1]);
      BeforeInStore(cfg, ForwardTo(cfg, w, id, scripts, k), id, k);
    }
  }

  lemma {:induction false} UndoReaches(cfg: Settings, w: World, id: EnvId, scripts: seq<seq<Outcome>>, x: World,
                                       cscripts: seq<seq<Outcome>>, k: nat, st: string)
    requires k <= |scripts| && k <= |cscripts| && k <= |STEPS| && Before(cfg, w, id, 0)
    requires ForwardAllAcked(cfg, w, id, scripts, k) && After(x, ForwardTo(cfg, w, id, scripts, k), id, st)
    ensures
      var (y, acked) := UndoFrom(cfg, x, id, cscripts, k);
      && ((forall i | 0 <= i < k :: Calm(cscripts[i])) ==> acked)
      && (acked ==> After(y, w, id, if k == 8 then DESTROYED else st))
    decreases k
  {
    if k == 0 {
    } else {
      hide Serve, Before, After, Calm;
      PrefixReaches(cfg, w, id, scripts, k - 1);
      RoundTrip(cfg, ForwardTo(cfg, w, id, scripts, k - 1), id, k - 1, scripts[k - 1], x, cscripts[k - 1], st);
      var (y, a) := Serve(cfg, x, id, STEPS[k - 1], Compensate, cscripts[k - 1]);
      if a == Acked { UndoReaches(cfg, w, id, scripts, y, cscripts, k - 1, if k == 8 then DESTROYED else st); }
    }
  }

  /** The reverse cascade: in a consistent cloud that may hold anything else, from an environment with nothing of its
      own, any acknowledged prefix of real steps is followed by its compensations in reverse. Without faults they are
      accepted throughout; and whatever the faults, if they are acknowledged, the run ends with the very ledger it
      started from, and with the record it started from but for a destroyed mark when registry was among the steps. */
  lemma ReverseCascadeClears(cfg: Settings, w: World, id: EnvId, scripts: seq<seq<Outcome>>,
                             cscripts: seq<seq<Outcome>>, k: nat)
    requires k <= |scripts| && k <= |cscripts| && k <= |STEPS|
    requires Real(w, id) && Consistent(w) && Fresh(w.store[id]) && w.store[id].status != READY
    requires FileKey(EnvPath(cfg, id)) !in w.ledger && BucketKey(BucketName(id)) !in w.ledger
    requires ForwardAllAcked(cfg, w, id, scripts, k)
    ensures
      var (y, acked) := UndoFrom(cfg, ForwardTo(cfg, w, id, scripts, k), id, cscripts, k);
      && ((forall i | 0 <= i < k :: Calm(cscripts[i])) ==> acked)
      && (acked ==>
            && y.ledger == w.ledger
            && y.store == w.store[id := w.store[id].(status := if k == 8 then "destroyed" else w.store[id].status)])
  {
    hide Serve, ForwardAllAcked, Consistent, Alike, Calm, Fresh, Before, EnvPath, BucketName, ForwardTo;
    var x := ForwardTo(cfg, w, id, scripts, k);
    FreshIsBefore(cfg, w, id);
    PrefixStatus(cfg, w, id, scripts, k);
    UndoReaches(cfg, w, id, scripts, x, cscripts, k, x.store[id].status);
    if UndoFrom(cfg, x, id, cscripts, k).1 {
      AlikeWithoutBucket(UndoFrom(cfg, x, id, cscripts, k).0.ledger, w.ledger, BucketName(id));
    }
  }

  lemma FreshIsBefore(cfg: Settings, w: World, id: EnvId)
    requires Real(w, id) && Consistent(w) && Fresh(w.store[id]) && w.store[id].status != READY
    requires FileKey(EnvPath(cfg, id)) !in w.ledger
    ensures Before(cfg, w, id, 0)
  {
    hide Consistent, EnvPath;
  }

  lemma AlikeWithoutBucket(l1: Ledger, l2: Ledger, b: string)
    requires Alike(l1, l2, b) && BucketKey(b) !in l2
    ensures l1 == l2
  {
    forall k | k in l1 && k in l2 ensures l1[k] == l2[k] {
      assert AlikeItem(l1[k], l2[k], k == BucketKey(b));
    }
  }

  lemma PrefixStatus(cfg: Settings, w: World, id: EnvId, scripts: seq<seq<Outcome>>, k: nat)
    requires k <= |scripts| && k <= |STEPS| && Before(cfg, w, id, 0) && ForwardAllAcked(cfg, w, id, scripts, k)
    ensures
      var x := ForwardTo(cfg, w, id, scripts, k);
      && id in w.store && id in x.store && After(x, x, id, x.store[id].status)
      && (k < 8 ==> x.store[id].status == w.store[id].status)
  {
    hide Serve, Consistent, Alike;
    var x := ForwardTo(cfg, w, id, scripts, k);
    if k < 8 {
      PrefixReaches(cfg, w, id, scripts, k);
    } else {
      PrefixReaches(cfg, w, id, scripts, 7);
      RegistryForward(cfg, ForwardTo(cfg, w, id, scripts, 7), id, scripts[7]);
    }
    AlikeItself(x.ledger, BucketName(id));
    assert x.store == x.store[id := x.store[id].(status := x.store[id].status)];
  }

  lemma AlikeItself(l: Ledger, b: string)
    ensures Alike(l, l, b)
  {
  }
}
