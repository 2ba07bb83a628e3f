/** Real-mode retries: where they keep the exactly-once effect the architecture notes promise, and exactly where not. */
module Retries {
  import opened Records
  import opened Ledgers
  import opened Handlers
  import opened Cascade
  import opened Unwind
  import opened Progress
  import opened Attempts
  import Convergence

  /** The resources that exist now and did not before. */
  function NewKeys(before: World, after: World): set<Key> {
    after.ledger.Keys - before.ledger.Keys
  }

  lemma CarryStops(cfg: Settings, step: Step, w: World, r: Record, prog: seq<Action>, pc: nat, script: seq<Outcome>)
    requires pc < |prog| && pc + 1 >= |script|
    ensures Carry(cfg, step, w, r, prog, pc, script) == (w, NoReply)
  {
  }

  /** A forward request whose step is marked, or on whose behalf the cloud is not asked. */
  lemma MarkedSkips(cfg: Settings, w: World, id: EnvId, step: Step, script: seq<Outcome>)
    requires id in w.store && step != Health && Marked(step, w.store[id]) && !AsksCloud(step, w.store[id])
    ensures Serve(cfg, w, id, step, Forward, script).0 == w
    ensures |script| > 1 && script[0].Ok? ==> Serve(cfg, w, id, step, Forward, script).1 == Acked
  {
    hide ForwardProgram;
    var r := w.store[id];
    ForwardStartsWithCheck(cfg, step, r);
    if |script| > 1 { CheckSkips(cfg, step, w, r, script[1]); }
  }

  lemma CheckSkips(cfg: Settings, step: Step, w: World, r: Record, o: Outcome)
    requires Marked(step, r) && !AsksCloud(step, r)
    ensures Perform(cfg, step, Check, w, r, o) == Stop(w, Acked)
  {
  }

  lemma ForwardStartsWithCheck(cfg: Settings, step: Step, r: Record)
    ensures var prog := ForwardProgram(cfg, step, r); |prog| > 1 && prog[0] == Check
  {
  }

  /** An unmarked request goes past its check. */
  lemma UnmarkedStarts(cfg: Settings, w: World, id: EnvId, step: Step, prog: seq<Action>, script: seq<Outcome>)
    requires id in w.store && !Marked(step, w.store[id]) && prog == ForwardProgram(cfg, step, w.store[id])
             && 1 < |prog| && prog[0] == Check
    ensures |script| > 1 && script[0].Ok? ==>
              Serve(cfg, w, id, step, Forward, script) == Carry(cfg, step, w, w.store[id], prog, 1, script)
    ensures |script| <= 1 || !script[0].Ok? ==>
              Serve(cfg, w, id, step, Forward, script).0 == w && Serve(cfg, w, id, step, Forward, script).1 != Acked
  {
    hide ForwardProgram, Carry, Perform;
    if |script| > 1 && script[0].Ok? {
      CarryIs(cfg, step, w, w.store[id], prog, 0, script);
      UnmarkedGoes(cfg, step, w, w.store[id], script[1]);
    } else if |script| == 1 && script[0].Ok? {
      CarryStops(cfg, step, w, w.store[id], prog, 0, script);
    }
  }

  lemma UnmarkedGoes(cfg: Settings, step: Step, w: World, r: Record, o: Outcome)
    requires !Marked(step, r)
    ensures Perform(cfg, step, Check, w, r, o) == Go(w, r)
  {
    hide With, Without;
  }

  // ----- vpc, any number of attempts -----

  /** CreateVpc took effect in this attempt on an unmarked record. */
  predicate VpcCreated(w: World, id: EnvId, script: seq<Outcome>)
    requires id in w.store
  {
    && w.store[id].vpcId == "" && |script| > 2 && script[0].Ok? && (script[2].Ok? || script[2].Lost?)
    && script[2].value != ""
    && VpcKey(script[2].value) !in w.ledger && VpcKey(script[2].value) !in w.issued
  }

  lemma VpcTailStep(cfg: Settings, w: World, r: Record, pc: nat, o: Outcome)
    requires 2 <= pc < |VPC_PROGRAM|
    ensures
      var v := Perform(cfg, Vpc, VPC_PROGRAM[pc], w, r, o);
      && (forall id :: VpcKey(id) in v.world.ledger <==> VpcKey(id) in w.ledger)
      && (v.Go? ==> v.local.vpcId == r.vpcId && v.local.id == r.id && v.local.dryRun == r.dryRun)
      && (v.world.store == w.store || v.world.store == w.store[r.id := r])
  {
    hide Attempt, With, Without, PurgeSome, AlreadyDone, AsksCloud, Uses, Short;
    if pc < 8 { VpcTailAttempt(cfg, w, r, VPC_PROGRAM[pc], o); }
  }

  lemma VpcTailAttempt(cfg: Settings, w: World, r: Record, a: Action, o: Outcome)
    requires a in {EnableDns, WaitVpc, CreatePublicSubnet, CreatePrivateSubnet, CreateGroup, AuthorizeIngress}
    ensures
      var v := Attempt(cfg, a, w, r, o);
      && (forall id :: VpcKey(id) in v.world.ledger <==> VpcKey(id) in w.ledger)
      && (v.Go? ==> v.local.vpcId == r.vpcId && v.local.id == r.id && v.local.dryRun == r.dryRun)
      && v.world.store == w.store
  {
    hide Uses, Short;
  }

  /** The rest of a vpc attempt, seen from the store it found: no VPC comes or goes, and the row stays or is the new
      one. */
  lemma {:induction false} VpcTail(cfg: Settings, w: World, r: Record, pc: nat, script: seq<Outcome>)
    requires 2 <= pc <= |VPC_PROGRAM|
    ensures
      var w' := Carry(cfg, Vpc, w, r, VPC_PROGRAM, pc, script).0;
      && (forall id :: VpcKey(id) in w'.ledger <==> VpcKey(id) in w.ledger)
      && (w'.store == w.store || (r.id in w'.store && w'.store == w.store[r.id := w'.store[r.id]]
                                  && w'.store[r.id].vpcId == r.vpcId && w'.store[r.id].dryRun == r.dryRun
                                  && w'.store[r.id].id == r.id))
    decreases |VPC_PROGRAM| - pc
  {
    hide Carry, Perform;
    if pc < |VPC_PROGRAM| && pc + 1 < |script| {
      CarryIs(cfg, Vpc, w, r, VPC_PROGRAM, pc, script);
      VpcTailStep(cfg, w, r, pc, script[pc + 1]);
      var v := Perform(cfg, Vpc, VPC_PROGRAM[pc], w, r, script[pc + 1]);
      if v.Go? { VpcTail(cfg, v.world, v.local, pc + 1, script); }
    } else {
      CarryOver(cfg, Vpc, w, r, VPC_PROGRAM, pc, script);
    }
  }

  lemma CreateVpcIs(cfg: Settings, w: World, r: Record, o: Outcome)
    ensures !o.Ok? && !o.Lost? ==> Perform(cfg, Vpc, CreateVpc, w, r, o) == Stop(w, Refused)
    ensures
      o.Ok? || o.Lost? ==>
        var V := VpcKey(o.value);
        Perform(cfg, Vpc, CreateVpc, w, r, o)
        == if o.value == "" || V in w.ledger || V in w.issued then Stop(w, Refused)
        else
          var w' := w.(ledger := w.ledger[V := VpcItem("10.0.0.0/16", false)], issued := w.issued[V := Short(r.id)]);
          if o.Ok? then Go(w', r.(vpcId := o.value)) else Stop(w', Refused)
  {
    hide With, Without, Short;
  }

  /** The VPCs that exist now and did not before. */
  function NewVpcs(before: World, after: World): set<Key> {
    set k | k in after.ledger && k.VpcKey? && k !in before.ledger
  }

  /** One attempt creates a VPC exactly if its CreateVpc took effect, and records that one or changes no record. */
  lemma VpcAttempt(cfg: Settings, w: World, id: EnvId, script: seq<Outcome>)
    requires Real(w, id)
    ensures
      var w' := Serve(cfg, w, id, Vpc, Forward, script).0;
      && Real(w', id)
      && NewVpcs(w, w') == (if VpcCreated(w, id, script) then {VpcKey(script[2].value)} else {})
      && (forall v :: VpcKey(v) in w.ledger ==> VpcKey(v) in w'.ledger)
      && (w'.store == w.store || (VpcCreated(w, id, script) && w'.store[id].vpcId == script[2].value))
  {
    hide Carry, Perform, Serve, Short;
    var r := w.store[id];
    if r.vpcId != "" {
      MarkedSkips(cfg, w, id, Vpc, script);
    } else {
      UnmarkedStarts(cfg, w, id, Vpc, VPC_PROGRAM, script);
      if |script| == 2 && script[0].Ok? {
        CarryStops(cfg, Vpc, w, r, VPC_PROGRAM, 1, script);
      } else if |script| > 2 && script[0].Ok? {
        CarryIs(cfg, Vpc, w, r, VPC_PROGRAM, 1, script);
        CreateVpcIs(cfg, w, r, script[2]);
        var v := Perform(cfg, Vpc, CreateVpc, w, r, script[2]);
        if v.Go? { VpcTail(cfg, v.world, v.local, 2, script); }
      }
    }
  }

  /** The world after the first n of the given forward requests. */
  function AfterTries(cfg: Settings, w: World, id: EnvId, step: Step, scripts: seq<seq<Outcome>>, n: nat): World
    requires n <= |scripts|
  {
    if n == 0 then w else Serve(cfg, AfterTries(cfg, w, id, step, scripts, n - 1), id, step, Forward, scripts[n - 1]).0
  }

  /** How many attempts created a VPC that they did not get recorded. */
  ghost function Wasted(cfg: Settings, w: World, id: EnvId, scripts: seq<seq<Outcome>>, n: nat): nat
    requires n <= |scripts|
  {
    if n == 0 then 0
    else
      var x, y := AfterTries(cfg, w, id, Vpc, scripts, n - 1), AfterTries(cfg, w, id, Vpc, scripts, n);
      Wasted(cfg, w, id, scripts, n - 1) + if id in x.store && VpcCreated(x, id, scripts[n - 1]) && y.store == x.store
      then 1 else 0
  }

  /** After any number of attempts, cut or failed anywhere, there are as many new VPCs as attempts that wasted one,
      plus one if the record names one. */
  lemma {:induction false} VpcsAfterTries(cfg: Settings, w: World, id: EnvId, scripts: seq<seq<Outcome>>, n: nat)
    requires n <= |scripts| && Real(w, id) && w.store[id].vpcId == ""
    ensures
      var x := AfterTries(cfg, w, id, Vpc, scripts, n);
      && Real(x, id)
      && |NewVpcs(w, x)| == Wasted(cfg, w, id, scripts, n) + (if x.store[id].vpcId != "" then 1 else 0)
      && (forall v :: VpcKey(v) in w.ledger ==> VpcKey(v) in x.ledger)
      && (x.store[id].vpcId != "" ==> VpcKey(x.store[id].vpcId) in NewVpcs(w, x))
  {
    if n == 0 {
      assert NewVpcs(w, w) == {};
    } else {
      hide Serve;
      VpcsAfterTries(cfg, w, id, scripts, n - 1);
      var x, y := AfterTries(cfg, w, id, Vpc, scripts, n - 1), AfterTries(cfg, w, id, Vpc, scripts, n);
      VpcAttempt(cfg, x, id, scripts[n - 1]);
      NewAddUp(w, x, y);
    }
  }

  lemma NewAddUp(w: World, x: World, y: World)
    requires forall v :: VpcKey(v) in w.ledger ==> VpcKey(v) in x.ledger
    requires forall v :: VpcKey(v) in x.ledger ==> VpcKey(v) in y.ledger
    ensures NewVpcs(w, y) == NewVpcs(w, x) + NewVpcs(x, y) && NewVpcs(w, x) !! NewVpcs(x, y)
    ensures |NewVpcs(w, y)| == |NewVpcs(w, x)| + |NewVpcs(x, y)|
  {
    forall k: Key | k.VpcKey? ensures (k in x.ledger ==> k in y.ledger) && (k in w.ledger ==> k in x.ledger) {
      assert k == VpcKey(k.id);
    }
    SplitNew(w, x, y);
  }

  lemma SplitNew(w: World, x: World, y: World)
    requires forall k: Key :: k.VpcKey? ==> (k in x.ledger ==> k in y.ledger) && (k in w.ledger ==> k in x.ledger)
    ensures NewVpcs(w, y) == NewVpcs(w, x) + NewVpcs(x, y) && NewVpcs(w, x) !! NewVpcs(x, y)
    ensures |NewVpcs(w, y)| == |NewVpcs(w, x)| + |NewVpcs(x, y)|
  {
    forall k ensures k in NewVpcs(w, y) <==> k in NewVpcs(w, x) + NewVpcs(x, y) {}
  }

  /** Exactly once, for vpc: when the last of any number of attempts is acknowledged, the new VPCs are one more than the
      attempts whose CreateVpc took effect and whose final Put did not; exactly one if and only if there was none
      such. */
  lemma VpcExactlyOnceIff(cfg: Settings, w: World, id: EnvId, scripts: seq<seq<Outcome>>)
    requires Real(w, id) && w.store[id].vpcId == "" && scripts != []
    requires Serve(cfg, AfterTries(cfg, w, id, Vpc, scripts, |scripts| - 1), id, Vpc, Forward,
                   scripts[|scripts| - 1]).1 == Acked
    ensures
      var x := AfterTries(cfg, w, id, Vpc, scripts, |scripts|);
      && |NewVpcs(w, x)| == Wasted(cfg, w, id, scripts, |scripts|) + 1
      && (|NewVpcs(w, x)| == 1 <==> Wasted(cfg, w, id, scripts, |scripts|) == 0)
      && Real(x, id) && VpcKey(x.store[id].vpcId) in NewVpcs(w, x)
  {
    hide Serve, Wasted, NewVpcs;
    var n := |scripts|;
    VpcsAfterTries(cfg, w, id, scripts, n - 1);
    VpcsAfterTries(cfg, w, id, scripts, n);
    var x := AfterTries(cfg, w, id, Vpc, scripts, n - 1);
    if x.store[id].vpcId == "" {
      VpcForward(cfg, x, id, scripts[n - 1]);
    } else {
      MarkedSkips(cfg, x, id, Vpc, scripts[n - 1]);
    }
  }

  // ----- rds -----

  /** Exactly once, for rds: after any first attempt, and with whatever has become available by itself since, a calm
      retry is acknowledged if and only if nothing was created, or the first Put was applied and the instance is
      available. Acknowledged, there is exactly one new instance and the record names it; otherwise nothing changes, and
      an instance that was created unrecorded blocks every later retry. */
  lemma RdsRetryIff(cfg: Settings, w: World, id: EnvId, first: seq<Outcome>, later: World, keys: set<Key>,
                    retry: seq<Outcome>)
    requires Real(w, id) && w.store[id].rdsInstanceId == "" && DbKey(DbName(id)) !in w.ledger
    requires GroupKey(w.store[id].securityGroupId) in w.ledger && Calm(retry)
    requires Matures(Serve(cfg, w, id, Rds, Forward, first).0, later, keys)
    ensures
      var D := DbKey(DbName(id));
      var created := DbCreatedBy(w, id, first);
      var (w2, answer) := Serve(cfg, later, id, Rds, Forward, retry);
      && (created ==> D in later.ledger && later.ledger[D].DbItem?)
      && (answer == Acked <==> !created || (DbSaved(first) && later.ledger[D].dbState == Available))
      && (answer == Acked ==> NewKeys(w, w2) == {D} && DbRecorded(w2, id))
      && (answer != Acked ==> w2 == later)
  {
    hide Serve, DbName, DbCreatedBy, DbSaved;
    var w1 := Serve(cfg, w, id, Rds, Forward, first).0;
    var D := DbKey(DbName(id));
    RdsSavedBeforePolling(cfg, w, id, first);
    if !DbCreatedBy(w, id, first) {
      RdsProgress(cfg, later, id, retry);
      RdsForward(cfg, later, id, retry);
      assert NewKeys(w, Serve(cfg, later, id, Rds, Forward, retry).0) == {D};
    } else {
      assert NewKeys(w, later) == {D};
      if DbSaved(first) {
        KeepsMode(Rds, w.store[id], w1.store[id]);
        if later.ledger[D].dbState == Available {
          AvailableSkips(cfg, later, id, retry);
        } else {
          RdsRetryRefused(cfg, later, id, retry);
        }
      } else {
        RdsRetryRefused(cfg, later, id, retry);
      }
    }
  }

  lemma AvailableSkips(cfg: Settings, w: World, id: EnvId, script: seq<Outcome>)
    requires Real(w, id) && DbRecorded(w, id) && w.ledger[DbKey(DbName(id))].dbState == Available && Calm(script)
    ensures Serve(cfg, w, id, Rds, Forward, script) == (w, Acked)
  {
    hide DbName;
    assert Perform(cfg, Rds, Check, w, w.store[id], script[1]) == Stop(w, Acked);
  }

  /** Whatever the faults: as long as the instance exists, and is not recorded or not yet available, no rds request is
      acknowledged and none changes anything. The create is issued again and refused; polling is not resumed. */
  lemma RdsRetryRefused(cfg: Settings, w: World, id: EnvId, script: seq<Outcome>)
    requires Real(w, id) && DbKey(DbName(id)) in w.ledger
    requires w.store[id].rdsInstanceId == "" || (DbRecorded(w, id) && w.ledger[DbKey(DbName(id))].dbState != Available)
    ensures
      var (w', answer) := Serve(cfg, w, id, Rds, Forward, script);
      w' == w && answer != Acked
  {
    hide Carry, Perform, DbName;
    var r := w.store[id];
    if |script| > 0 && script[0].Ok? {
      assert Serve(cfg, w, id, Rds, Forward, script) == Carry(cfg, Rds, w, r, RDS_PROGRAM, 0, script);
      if |script| == 1 {
        CarryStops(cfg, Rds, w, r, RDS_PROGRAM, 0, script);
      } else {
        CarryIs(cfg, Rds, w, r, RDS_PROGRAM, 0, script);
        RdsCheckIs(cfg, w, r, script[1]);
        if Perform(cfg, Rds, Check, w, r, script[1]).Go? { RdsRetryCarry(cfg, w, r, script); }
      }
    }
  }

  lemma RdsRetryCarry(cfg: Settings, w: World, r: Record, script: seq<Outcome>)
    requires DbKey(DbName(r.id)) in w.ledger && |script| > 1
    ensures
      var (w', answer) := Carry(cfg, Rds, w, r, RDS_PROGRAM, 1, script);
      w' == w && answer != Acked
  {
    hide Carry, Perform, DbName;
    if |script| == 2 {
      CarryStops(cfg, Rds, w, r, RDS_PROGRAM, 1, script);
    } else {
      CarryIs(cfg, Rds, w, r, RDS_PROGRAM, 1, script);
      NameDbIs(cfg, w, r, script[2]);
      if script[2].Ok? {
        var r1 := r.(rdsPassword := script[2].value, rdsInstanceId := DbName(r.id));
        if |script| == 3 {
          CarryStops(cfg, Rds, w, r1, RDS_PROGRAM, 2, script);
        } else {
          CarryIs(cfg, Rds, w, r1, RDS_PROGRAM, 2, script);
          CreateDbRefused(cfg, w, r1, script[3]);
        }
      }
    }
  }

  lemma RdsCheckIs(cfg: Settings, w: World, r: Record, o: Outcome)
    requires !r.dryRun
    requires
      var D := DbKey(r.rdsInstanceId);
      r.rdsInstanceId == "" || (D in w.ledger && w.ledger[D].DbItem? && w.ledger[D].dbState != Available)
    ensures Perform(cfg, Rds, Check, w, r, o) in {Go(w, r), Stop(w, Refused)}
  {
  }

  lemma CreateDbRefused(cfg: Settings, w: World, r: Record, o: Outcome)
    requires DbKey(r.rdsInstanceId) in w.ledger
    ensures Perform(cfg, Rds, CreateDb, w, r, o) == Stop(w, Refused)
  {
    hide With, Without;
  }

  // ----- ec2 -----

  /** Exactly once, for ec2: after any first attempt, with whatever has started running by itself since, and an
      acknowledged retry there is exactly one new instance if and only if the first launched none, or got it recorded
      and the retry found it running. Otherwise there are two, and the record names only the second. */
  lemma Ec2ExactlyOnceIff(cfg: Settings, w: World, id: EnvId, first: seq<Outcome>, later: World, keys: set<Key>,
                          retry: seq<Outcome>)
    requires Real(w, id) && w.store[id].ec2InstanceId == ""
    requires Matures(Serve(cfg, w, id, Ec2, Forward, first).0, later, keys)
    requires Serve(cfg, later, id, Ec2, Forward, retry).1 == Acked
    ensures
      var J := Launched(w, id, first);
      var w2 := Serve(cfg, later, id, Ec2, Forward, retry).0;
      && (|NewKeys(w, w2)| == 1 <==> J == {} || (InstanceSaved(first) && AllRunning(later, J)))
      && Ends(w, w2, id, J, |NewKeys(w, w2)| == 1)
  {
    hide Serve, InstanceSaved, Short, Launched, Ends, NewKeys;
    var J := Launched(w, id, first);
    FirstLaunch(cfg, w, id, first);
    if J == {} {
      Ec2Forward(cfg, later, id, retry);
      var w2 := Serve(cfg, later, id, Ec2, Forward, retry).0;
      OneNew(w, w2, id, J, InstanceKey(w2.store[id].ec2InstanceId));
    } else if InstanceSaved(first) && AllRunning(later, J) {
      RunningSkips(cfg, later, id, retry);
      OneNew(w, later, id, J, InstanceKey(first[2].value));
    } else {
      SecondLaunch(cfg, later, id, retry);
      TwoNew(w, later, Serve(cfg, later, id, Ec2, Forward, retry).0, id, InstanceKey(first[2].value));
    }
  }

  predicate AllRunning(w: World, keys: set<Key>) {
    forall k :: k in keys ==>
                  k in w.ledger && w.ledger[k].InstanceItem? && w.ledger[k].instanceState == InstanceState.Running
  }

  /** One or two new instances, the record naming one of them, and not the first launched if there are two. */
  predicate Ends(w: World, w2: World, id: EnvId, first: set<Key>, one: bool) {
    && id in w2.store && InstanceKey(w2.store[id].ec2InstanceId) in NewKeys(w, w2)
    && |NewKeys(w, w2)| == (if one then 1 else 2)
    && (!one ==> InstanceKey(w2.store[id].ec2InstanceId) !in first)
  }

  lemma OneNew(w: World, w2: World, id: EnvId, first: set<Key>, k: Key)
    requires id in w2.store && k == InstanceKey(w2.store[id].ec2InstanceId) && k !in w.ledger
             && w2.ledger.Keys == w.ledger.Keys + {k}
    ensures Ends(w, w2, id, first, true)
  {
    assert NewKeys(w, w2) == {k};
  }

  lemma TwoNew(w: World, w1: World, w2: World, id: EnvId, k: Key)
    requires k !in w.ledger && w1.ledger.Keys == w.ledger.Keys + {k} && w1.ledger.Keys <= w2.ledger.Keys
    requires id in w2.store && NewKeys(w1, w2) == {InstanceKey(w2.store[id].ec2InstanceId)}
    ensures Ends(w, w2, id, {k}, false)
  {
    assert NewKeys(w, w1) == {k};
    KeysAddUp(w, w1, w2);
  }

  lemma KeysAddUp(w: World, x: World, y: World)
    requires w.ledger.Keys <= x.ledger.Keys <= y.ledger.Keys
    ensures NewKeys(w, y) == NewKeys(w, x) + NewKeys(x, y) && NewKeys(w, x) !! NewKeys(x, y)
    ensures |NewKeys(w, y)| == |NewKeys(w, x)| + |NewKeys(x, y)|
  {
  }

  /** The instance that an attempt on an unrecorded environment launches. */
  function Launched(w: World, id: EnvId, script: seq<Outcome>): set<Key>
    requires id in w.store
  {
    if |script| > 0 && script[0].Ok? && InstanceCreated(w, w.store[id], script) then {InstanceKey(script[2].value)}
    else {}
  }

  lemma FirstLaunch(cfg: Settings, w: World, id: EnvId, first: seq<Outcome>)
    requires Real(w, id) && w.store[id].ec2InstanceId == ""
    ensures
      var J := Launched(w, id, first);
      var w1 := Serve(cfg, w, id, Ec2, Forward, first).0;
      && Real(w1, id)
      && (J == {} ==> w1 == w)
      && (J != {} ==>
            var k := InstanceKey(if |first| > 2 && (first[2].Ok? || first[2].Lost?) then first[2].value else "");
            && J == {k} && |first| > 2 && (first[2].Ok? || first[2].Lost?) && first[2].value != "" && k !in w.ledger
            && k in w1.ledger && w1.ledger[k].InstanceItem? && w1.ledger == w.ledger[k := w1.ledger[k]]
            && w1.store[id].ec2InstanceId == if InstanceSaved(first) then first[2].value else "")
  {
    hide Serve, InstanceSaved, Short;
    Ec2SavedBeforePolling(cfg, w, id, first);
    var w1 := Serve(cfg, w, id, Ec2, Forward, first).0;
    if Launched(w, id, first) != {} && InstanceSaved(first) { KeepsMode(Ec2, w.store[id], w1.store[id]); }
  }

  lemma RunningSkips(cfg: Settings, w: World, id: EnvId, script: seq<Outcome>)
    requires Real(w, id) && InstanceRecorded(w, id) && Serve(cfg, w, id, Ec2, Forward, script).1 == Acked
    requires w.ledger[InstanceKey(w.store[id].ec2InstanceId)].instanceState == InstanceState.Running
    ensures Serve(cfg, w, id, Ec2, Forward, script).0 == w
  {
    hide Carry, Perform;
    var r := w.store[id];
    assert Serve(cfg, w, id, Ec2, Forward, script) == Carry(cfg, Ec2, w, r, EC2_PROGRAM, 0, script);
    if |script| == 1 { CarryStops(cfg, Ec2, w, r, EC2_PROGRAM, 0, script); } else {
      CarryIs(cfg, Ec2, w, r, EC2_PROGRAM, 0, script);
      RunningIsDone(cfg, w, r, script[1]);
    }
  }

  lemma RunningIsDone(cfg: Settings, w: World, r: Record, o: Outcome)
    requires !r.dryRun && r.ec2InstanceId != ""
    requires
      var k := InstanceKey(r.ec2InstanceId);
      k in w.ledger && w.ledger[k].InstanceItem? && w.ledger[k].instanceState == InstanceState.Running
    ensures Perform(cfg, Ec2, Check, w, r, o) == Stop(w, if o.Ok? then Acked else Refused)
  {
  }

  /** Unrecorded, or recorded and not running, or gone: an acknowledged request launches a new instance and records
      it. */
  lemma SecondLaunch(cfg: Settings, w: World, id: EnvId, script: seq<Outcome>)
    requires Real(w, id) && Serve(cfg, w, id, Ec2, Forward, script).1 == Acked
    requires InstanceMissing(w.store[id], w.ledger)
    ensures
      var w' := Serve(cfg, w, id, Ec2, Forward, script).0;
      && id in w'.store
      && NewKeys(w, w') == {InstanceKey(w'.store[id].ec2InstanceId)} && w.ledger.Keys <= w'.ledger.Keys
  {
    hide Carry, Perform, Short;
    var r := w.store[id];
    assert Serve(cfg, w, id, Ec2, Forward, script) == Carry(cfg, Ec2, w, r, EC2_PROGRAM, 0, script);
    if |script| == 1 { CarryStops(cfg, Ec2, w, r, EC2_PROGRAM, 0, script); } else {
      CarryIs(cfg, Ec2, w, r, EC2_PROGRAM, 0, script);
      NotRunningGoes(cfg, w, r, script[1]);
      Ec2Executed(cfg, w, r, script);
    }
  }

  lemma NotRunningGoes(cfg: Settings, w: World, r: Record, o: Outcome)
    requires !r.dryRun && InstanceMissing(r, w.ledger)
    ensures Perform(cfg, Ec2, Check, w, r, o) in {Go(w, r), Stop(w, Refused)}
  {
  }

  lemma Ec2Executed(cfg: Settings, w: World, r: Record, script: seq<Outcome>)
    requires r.id in w.store && w.store[r.id] == r && Carry(cfg, Ec2, w, r, EC2_PROGRAM, 1, script).1 == Acked
    ensures
      var w' := Carry(cfg, Ec2, w, r, EC2_PROGRAM, 1, script).0;
      && r.id in w'.store
      && NewKeys(w, w') == {InstanceKey(w'.store[r.id].ec2InstanceId)} && w.ledger.Keys <= w'.ledger.Keys
  {
    hide Carry, Perform, Short;
    CarryStep(cfg, Ec2, w, r, EC2_PROGRAM, 1, script);
    var v := Perform(cfg, Ec2, RunInstance, w, r, script[2]);
    if script[2].Ok? || script[2].Lost? {
      RunInstanceIs(cfg, w, r, script[2]);
    } else {
      RunInstanceFails(cfg, w, r, script[2]);
    }
    CarryStep(cfg, Ec2, v.world, v.local, EC2_PROGRAM, 2, script);
    PutIs(cfg, Ec2, v.world, v.local, script[3]);
    Ec2Attempt(cfg, w, r, script);
  }

  // ----- s3 -----

  /** CreateBucket took effect in an attempt on an unmarked record, and so did the final Put. */
  predicate BucketCreated(script: seq<Outcome>) {
    |script| > 2 && script[0].Ok? && (script[2].Ok? || script[2].Lost?)
  }

  predicate BucketSaved(script: seq<Outcome>) {
    && |script| > 5 && script[0].Ok? && script[2].Ok? && script[3].Ok? && script[4].Ok?
    && (script[5].Ok? || script[5].Lost?)
  }

  /** What one s3 attempt on an unmarked record leaves. */
  predicate AfterS3Attempt(w: World, w': World, id: EnvId, created: bool, saved: bool)
    requires id in w.store
  {
    var B := BucketKey(BucketName(id));
    && w'.issued == w.issued
    && (if created then B in w'.ledger && w'.ledger[B].BucketItem? && w'.ledger == w.ledger[B := w'.ledger[B]]
        else w'.ledger == w.ledger)
    && w'.store == if saved then w.store[id := w.store[id].(s3BucketName := BucketName(id))] else w.store
  }

  lemma S3Attempt(cfg: Settings, w: World, id: EnvId, script: seq<Outcome>)
    requires Real(w, id) && w.store[id].s3BucketName == "" && BucketKey(BucketName(id)) !in w.ledger
    ensures AfterS3Attempt(w, Serve(cfg, w, id, S3, Forward, script).0, id, BucketCreated(script), BucketSaved(script))
  {
    hide Carry, Perform, Serve, BucketName;
    var r := w.store[id];
    UnmarkedStarts(cfg, w, id, S3, S3_PROGRAM, script);
    if |script| == 2 && script[0].Ok? {
      CarryStops(cfg, S3, w, r, S3_PROGRAM, 1, script);
    } else if |script| > 2 && script[0].Ok? {
      CarryIs(cfg, S3, w, r, S3_PROGRAM, 1, script);
      CreateBucketIs(cfg, w, r, script[2]);
      if script[2].Ok? {
        var B := BucketKey(BucketName(id));
        S3AttemptTail(cfg, w.(ledger := w.ledger[B := BucketItem(false, [])]), r.(s3BucketName := BucketName(id)), 2,
                      script);
      }
    }
  }

  lemma CreateBucketIs(cfg: Settings, w: World, r: Record, o: Outcome)
    requires BucketKey(BucketName(r.id)) !in w.ledger
    ensures
      var w' := w.(ledger := w.ledger[BucketKey(BucketName(r.id)) := BucketItem(false, [])]);
      Perform(cfg, S3, CreateBucket, w, r, o)
      == if o.Ok? then Go(w', r.(s3BucketName := BucketName(r.id))) else if o.Lost? then Stop(w', Refused)
      else Stop(w, Refused)
  {
    hide With, Without, BucketName;
  }

  /** From an existing bucket on, nothing but its item changes until the final Put. */
  lemma {:induction false} S3AttemptTail(cfg: Settings, w: World, r: Record, pc: nat, script: seq<Outcome>)
    requires 2 <= pc <= 4 && |script| > pc && BucketKey(r.s3BucketName) in w.ledger
             && w.ledger[BucketKey(r.s3BucketName)].BucketItem?
    ensures
      var B := BucketKey(r.s3BucketName);
      var w' := Carry(cfg, S3, w, r, S3_PROGRAM, pc, script).0;
      && B in w'.ledger && w'.ledger[B].BucketItem? && w'.ledger == w.ledger[B := w'.ledger[B]] && w'.issued == w.issued
      && (w'.store == if |script| > 5 && (forall i | pc < i < 5 :: script[i].Ok?) && (script[5].Ok? || script[5].Lost?)
                         && |script| > 5
                      then w.store[r.id := r] else w.store)
    decreases 4 - pc
  {
    hide Carry, Perform;
    if |script| == pc + 1 {
      CarryStops(cfg, S3, w, r, S3_PROGRAM, pc, script);
    } else {
      CarryIs(cfg, S3, w, r, S3_PROGRAM, pc, script);
      if pc < 4 {
        BucketChangeIs(cfg, w, r, S3_PROGRAM[pc], script[pc + 1]);
        var v := Perform(cfg, S3, S3_PROGRAM[pc], w, r, script[pc + 1]);
        if v.Go? { S3AttemptTail(cfg, v.world, r, pc + 1, script); }
      } else {
        PutIs(cfg, S3, w, r, script[5]);
        if script[5].Ok? { CarryOver(cfg, S3, w.(store := w.store[r.id := r]), r, S3_PROGRAM, 5, script); }
      }
    }
  }

  lemma BucketChangeIs(cfg: Settings, w: World, r: Record, a: Action, o: Outcome)
    requires (a == EnableVersioning || a == PutPlaceholder) && BucketKey(r.s3BucketName) in w.ledger
             && w.ledger[BucketKey(r.s3BucketName)].BucketItem?
    ensures
      var B := BucketKey(r.s3BucketName);
      var v := Perform(cfg, S3, a, w, r, o);
      && B in v.world.ledger && v.world.ledger[B].BucketItem?
      && v.world == w.(ledger := w.ledger[B := v.world.ledger[B]])
      && (v.Go? <==> o.Ok?) && (v.Go? ==> v.local == r)
  {
    hide With, Without;
    assert w.ledger == w.ledger[BucketKey(r.s3BucketName) := w.ledger[BucketKey(r.s3BucketName)]];
  }

  /** Exactly once, for s3: after any first attempt a calm retry is acknowledged if and only if no bucket was created or
      the final Put was applied; then there is exactly one new bucket and the record names it. */
  lemma S3RetryIff(cfg: Settings, w: World, id: EnvId, first: seq<Outcome>, retry: seq<Outcome>)
    requires Real(w, id) && w.store[id].s3BucketName == "" && BucketKey(BucketName(id)) !in w.ledger && Calm(retry)
    ensures
      var w1 := Serve(cfg, w, id, S3, Forward, first).0;
      var (w2, answer) := Serve(cfg, w1, id, S3, Forward, retry);
      && (answer == Acked <==> !BucketCreated(first) || BucketSaved(first))
      && (answer == Acked ==> NewKeys(w, w2) == {BucketKey(BucketName(id))} && id in w2.store
                              && w2.store[id].s3BucketName == BucketName(id))
      && (answer != Acked ==> w2 == w1)
  {
    hide Serve, BucketName, BucketCreated, BucketSaved;
    var w1 := Serve(cfg, w, id, S3, Forward, first).0;
    S3Attempt(cfg, w, id, first);
    if !BucketCreated(first) {
      SavedIsCreated(first);
      assert w1 == w;
      S3Progress(cfg, w, id, retry);
      S3Forward(cfg, w, id, retry);
    } else if BucketSaved(first) {
      MarkedSkips(cfg, w1, id, S3, retry);
    } else {
      S3RetryRefused(cfg, w1, id, retry);
    }
  }

  lemma SavedIsCreated(script: seq<Outcome>)
    ensures BucketSaved(script) ==> BucketCreated(script)
  {
  }

  /** A bucket that exists and is not recorded blocks every later s3 request, whatever its faults. */
  lemma S3RetryRefused(cfg: Settings, w: World, id: EnvId, script: seq<Outcome>)
    requires Real(w, id) && w.store[id].s3BucketName == "" && BucketKey(BucketName(id)) in w.ledger
    ensures var (w', answer) := Serve(cfg, w, id, S3, Forward, script); w' == w && answer != Acked
  {
    hide Carry, Perform, Serve, BucketName;
    UnmarkedStarts(cfg, w, id, S3, S3_PROGRAM, script);
    if |script| > 1 && script[0].Ok? {
      if |script| == 2 { CarryStops(cfg, S3, w, w.store[id], S3_PROGRAM, 1, script); } else {
        CarryIs(cfg, S3, w, w.store[id], S3_PROGRAM, 1, script);
        TakenRefused(cfg, S3, CreateBucket, w, w.store[id], script[2]);
      }
    }
  }

  lemma TakenRefused(cfg: Settings, step: Step, a: Action, w: World, r: Record, o: Outcome)
    requires (a == CreateBucket && BucketKey(BucketName(r.id)) in w.ledger)
             || (a == CreatePolicy && PolicyKey(PolicyName(r.id)) in w.ledger)
    ensures Perform(cfg, step, a, w, r, o) == Stop(w, Refused)
  {
    hide BucketName, PolicyName, With, Without;
  }

  // ----- identity, real or dry-run, on a connected worker -----

  predicate PolicyCreated(script: seq<Outcome>) {
    |script| > 2 && script[0].Ok? && (script[2].Ok? || script[2].Lost?)
  }

  predicate PolicySaved(script: seq<Outcome>) {
    && |script| > 6 && script[0].Ok? && script[2].Ok? && script[3].Ok? && script[4].Ok?
    && (script[6].Ok? || script[6].Lost?)
  }

  lemma IdentityAttempt(cfg: Settings, w: World, id: EnvId, script: seq<Outcome>)
    requires id in w.store && w.store[id].id == id && cfg.connected
    requires w.store[id].svidExchangePolicyName == "" && PolicyKey(PolicyName(id)) !in w.ledger
    ensures
      Serve(cfg, w, id, Identity, Forward, script).0
      == w.(ledger := if PolicyCreated(script) then w.ledger[PolicyKey(PolicyName(id)) := PolicyOf(cfg, id)]
      else w.ledger,
           store := if PolicySaved(script) then w.store[id := With(cfg, Identity, w.store[id])] else w.store)
  {
    hide Carry, Perform, Serve, PolicyName, PolicyOf, With;
    var r := w.store[id];
    UnmarkedStarts(cfg, w, id, Identity, IDENTITY_PROGRAM, script);
    if |script| == 2 && script[0].Ok? {
      CarryStops(cfg, Identity, w, r, IDENTITY_PROGRAM, 1, script);
    } else if |script| > 2 && script[0].Ok? {
      CarryIs(cfg, Identity, w, r, IDENTITY_PROGRAM, 1, script);
      Convergence.CreatePolicyIs(cfg, w, r, script[2]);
      if script[2].Ok? {
        var w1 := w.(ledger := w.ledger[PolicyKey(PolicyName(id)) := PolicyOf(cfg, id)]);
        IdentityAttemptTail(cfg, w1, r, r.(svidExchangePolicyName := PolicyName(id)), script);
      }
    }
  }

  lemma IdentityAttemptTail(cfg: Settings, w: World, r: Record, r1: Record, script: seq<Outcome>)
    requires cfg.connected && |script| > 2 && r1 == r.(svidExchangePolicyName := PolicyName(r.id))
    requires PolicyKey(PolicyName(r.id)) in w.ledger && w.ledger[PolicyKey(PolicyName(r.id))] == PolicyOf(cfg, r.id)
    ensures
      Carry(cfg, Identity, w, r1, IDENTITY_PROGRAM, 2, script).0
      == w.(store := if |script| > 6 && script[3].Ok? && script[4].Ok? && (script[6].Ok? || script[6].Lost?)
      then w.store[r.id := With(cfg, Identity, r)] else w.store)
  {
    hide Carry, Perform, PolicyName, AppSpiffeId, DbProxySpiffeId;
    var prog := IDENTITY_PROGRAM;
    if |script| == 3 { CarryStops(cfg, Identity, w, r1, prog, 2, script); } else {
      CarryIs(cfg, Identity, w, r1, prog, 2, script);
      VerifyIs(cfg, w, r1, script[3]);
      if script[3].Ok? {
        if |script| == 4 { CarryStops(cfg, Identity, w, r1, prog, 3, script); } else {
          CarryIs(cfg, Identity, w, r1, prog, 3, script);
          ReloadIs(cfg, w, r1, script[4]);
          if script[4].Ok? { IdentityAttemptEnd(cfg, w, r1, script); }
        }
      }
    }
  }

  lemma IdentityAttemptEnd(cfg: Settings, w: World, r: Record, script: seq<Outcome>)
    requires cfg.connected && |script| > 4 && r.svidExchangePolicyName == PolicyName(r.id)
    ensures
      Carry(cfg, Identity, w, r, IDENTITY_PROGRAM, 4, script).0
      == w.(store := if |script| > 6 && (script[6].Ok? || script[6].Lost?) then w.store[r.id := With(cfg, Identity, r)]
      else w.store)
  {
    hide Carry, Perform, PolicyName, AppSpiffeId, DbProxySpiffeId;
    var prog := IDENTITY_PROGRAM;
    if |script| == 5 { CarryStops(cfg, Identity, w, r, prog, 4, script); } else {
      CarryIs(cfg, Identity, w, r, prog, 4, script);
      NameEntriesIs(cfg, w, r, script[5]);
      var r2 := With(cfg, Identity, r);
      if |script| == 6 { CarryStops(cfg, Identity, w, r2, prog, 5, script); } else {
        CarryIs(cfg, Identity, w, r2, prog, 5, script);
        PutIs(cfg, Identity, w, r2, script[6]);
        if script[6].Ok? { CarryOver(cfg, Identity, w.(store := w.store[r.id := r2]), r2, prog, 6, script); }
      }
    }
  }

  lemma VerifyIs(cfg: Settings, w: World, r: Record, o: Outcome)
    requires PolicyKey(r.svidExchangePolicyName) in w.ledger
             && w.ledger[PolicyKey(r.svidExchangePolicyName)] == PolicyOf(cfg, r.id)
    ensures Perform(cfg, Identity, VerifyPolicy, w, r, o) == if o.Ok? then Go(w, r) else Stop(w, Refused)
  {
    hide AppSpiffeId, DbProxySpiffeId, Joined;
  }

  lemma ReloadIs(cfg: Settings, w: World, r: Record, o: Outcome)
    ensures Perform(cfg, Identity, ReloadPolicies, w, r, o) == if o.Ok? then Go(w, r) else Stop(w, Refused)
  {
  }

  lemma NameEntriesIs(cfg: Settings, w: World, r: Record, o: Outcome)
    requires cfg.connected && r.svidExchangePolicyName == PolicyName(r.id)
    ensures Perform(cfg, Identity, NameEntries, w, r, o) == Go(w, With(cfg, Identity, r))
  {
    hide PolicyName;
  }

  /** Exactly once, for identity: after any first attempt a calm retry is acknowledged if and only if no policy was
      created or the final Put was applied; then there is exactly one new policy and the record names it. */
  lemma IdentityRetryIff(cfg: Settings, w: World, id: EnvId, first: seq<Outcome>, retry: seq<Outcome>)
    requires id in w.store && w.store[id].id == id && cfg.connected && Calm(retry)
    requires w.store[id].svidExchangePolicyName == "" && PolicyKey(PolicyName(id)) !in w.ledger
    ensures
      var w1 := Serve(cfg, w, id, Identity, Forward, first).0;
      var (w2, answer) := Serve(cfg, w1, id, Identity, Forward, retry);
      && (answer == Acked <==> !PolicyCreated(first) || PolicySaved(first))
      && (answer == Acked ==> NewKeys(w, w2) == {PolicyKey(PolicyName(id))} && id in w2.store
                              && w2.store[id] == With(cfg, Identity, w.store[id]))
      && (answer != Acked ==> w2 == w1)
  {
    hide Serve, PolicyName, With, PolicyOf;
    var w1 := Serve(cfg, w, id, Identity, Forward, first).0;
    IdentityAttempt(cfg, w, id, first);
    if !PolicyCreated(first) {
      assert w1 == w;
      IdentityAttempt(cfg, w, id, retry);
      CalmIdentity(cfg, w, id, retry);
    } else if PolicySaved(first) {
      IdentifiedIsMarked(cfg, w.store[id]);
      MarkedSkips(cfg, w1, id, Identity, retry);
    } else {
      IdentityRetryRefused(cfg, w1, id, retry);
    }
  }

  lemma IdentifiedIsMarked(cfg: Settings, r: Record)
    ensures Marked(Identity, With(cfg, Identity, r)) && !AsksCloud(Identity, With(cfg, Identity, r))
  {
  }

  lemma CalmIdentity(cfg: Settings, w: World, id: EnvId, script: seq<Outcome>)
    requires id in w.store && w.store[id].id == id && cfg.connected && Calm(script)
    requires w.store[id].svidExchangePolicyName == "" && PolicyKey(PolicyName(id)) !in w.ledger
    ensures Serve(cfg, w, id, Identity, Forward, script).1 == Acked
  {
    hide Serve, Carry, Perform, PolicyName, PolicyOf;
    var r := w.store[id];
    UnmarkedStarts(cfg, w, id, Identity, IDENTITY_PROGRAM, script);
    Convergence.CreatePolicyIs(cfg, w, r, script[2]);
    CalmStep(cfg, Identity, w, r, IDENTITY_PROGRAM, 1, script);
    var w1 := w.(ledger := w.ledger[PolicyKey(PolicyName(id)) := PolicyOf(cfg, id)]);
    var r1 := r.(svidExchangePolicyName := PolicyName(id));
    assert w1.ledger[PolicyKey(PolicyName(id))] == PolicyOf(cfg, id);
    IdentityProgressTail(cfg, w1, r1, script);
  }

  /** A policy that exists and is not recorded blocks every later identity request, whatever its faults. */
  lemma IdentityRetryRefused(cfg: Settings, w: World, id: EnvId, script: seq<Outcome>)
    requires id in w.store && w.store[id].id == id && cfg.connected
    requires w.store[id].svidExchangePolicyName == "" && PolicyKey(PolicyName(id)) in w.ledger
    ensures var (w', answer) := Serve(cfg, w, id, Identity, Forward, script); w' == w && answer != Acked
  {
    hide Carry, Perform, Serve, PolicyName;
    UnmarkedStarts(cfg, w, id, Identity, IDENTITY_PROGRAM, script);
    if |script| > 1 && script[0].Ok? {
      if |script| == 2 { CarryStops(cfg, Identity, w, w.store[id], IDENTITY_PROGRAM, 1, script); } else {
        CarryIs(cfg, Identity, w, w.store[id], IDENTITY_PROGRAM, 1, script);
        TakenRefused(cfg, Identity, CreatePolicy, w, w.store[id], script[2]);
      }
    }
  }
}
