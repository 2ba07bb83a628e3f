/** Real-mode compensations that are repeated: when a retry can still succeed. */
module UndoRetries {
  import opened Records
  import opened Ledgers
  import opened Handlers
  import opened Cascade
  import opened Unwind
  import opened Attempts
  import opened Retries

  /** The first thing a compensation deletes. */
  function Target(step: Step, r: Record): Key {
    match step
    case Rds => DbKey(r.rdsInstanceId)
    case Ec2 => InstanceKey(r.ec2InstanceId)
    case S3 => BucketKey(r.s3BucketName)
    case Identity => PolicyKey(r.svidExchangePolicyName)
    case _ => GroupKey(r.securityGroupId)
  }

  function UndoProgram(step: Step): seq<Action> {
    match step
    case Rds => RDS_UNDO
    case Ec2 => EC2_UNDO
    case S3 => S3_UNDO
    case Identity => IDENTITY_UNDO
    case _ => VPC_UNDO
  }

  predicate HasResources(step: Step) {
    step == Vpc || step == Rds || step == Ec2 || step == S3 || step == Identity
  }

  /** The record names resources of the step that are there and that nothing else uses. */
  ghost predicate Undoable(cfg: Settings, x: World, id: EnvId, step: Step) {
    && Real(x, id)
    && var r := x.store[id];
    var k := Target(step, r);
    match step
    case Rds => r.rdsInstanceId != "" && k in x.ledger && x.ledger[k].DbItem?
    case Ec2 => r.ec2InstanceId != "" && k in x.ledger && x.ledger[k].InstanceItem?
    case S3 => r.s3BucketName != "" && k in x.ledger && x.ledger[k].BucketItem?
    case Identity => r.svidExchangePolicyName != "" && k in x.ledger && x.ledger[k].PolicyItem? && cfg.connected
    case Vpc =>
      var V, P, Q := VpcKey(r.vpcId), SubnetKey(r.publicSubnetId), SubnetKey(r.privateSubnetId);
      && r.vpcId != "" && r.publicSubnetId != "" && r.privateSubnetId != "" && r.securityGroupId != ""
      && r.publicSubnetId != r.privateSubnetId
      && V in x.ledger && P in x.ledger && Q in x.ledger && k in x.ledger
      && x.ledger[V].VpcItem? && x.ledger[P].SubnetItem? && x.ledger[Q].SubnetItem? && x.ledger[k].GroupItem?
      && Unused(x.ledger, P) && Unused(x.ledger, Q) && Unused(x.ledger, k) && Unused(x.ledger - {P} - {Q} - {k}, V)
    case _ => false
  }

  predicate SameKind(i: Item, j: Item) {
    (i.DbItem? == j.DbItem?) && (i.InstanceItem? == j.InstanceItem?) && (i.BucketItem? == j.BucketItem?)
    && (i.PolicyItem? == j.PolicyItem?)
  }

  /** While the target is there, nothing has been lost: for vpc nothing at all was deleted. */
  predicate Kept(step: Step, r: Record, l0: Ledger, l: Ledger) {
    var k := Target(step, r);
    k in l ==> k in l0 && SameKind(l0[k], l[k]) && (step == Vpc ==> l == l0)
  }

  predicate TargetGone(step: Step, w: World, r: Record) {
    Target(step, r) !in w.ledger
  }

  /** What holds after a delete: vpc and identity start with the target, and nothing brings it back. */
  predicate DeleteOk(cfg: Settings, step: Step, w: World, r: Record, l0: Ledger, pc: nat, o: Outcome)
    requires pc < |UndoProgram(step)|
  {
    var v := Perform(cfg, step, UndoProgram(step)[pc], w, r, o);
    && Kept(step, r, l0, v.world.ledger) && v.world.store == w.store
    && (step in {Vpc, Identity} && (v.Go? || pc > 0) ==> TargetGone(step, v.world, r))
    && (v.Go? ==> v.local == r)
    && (v.Stop? ==> v.answer == Refused)
  }

  lemma GroupDeleteKeeps(cfg: Settings, w: World, r: Record, l0: Ledger, pc: nat, o: Outcome)
    requires pc + 2 < |UndoProgram(Vpc)| && Kept(Vpc, r, l0, w.ledger) && r.securityGroupId != ""
    requires pc > 0 && Vpc in {Vpc, Identity} ==> TargetGone(Vpc, w, r)
    ensures DeleteOk(cfg, Vpc, w, r, l0, pc, o)
  {
    hide With, Without, Uses;
  }

  lemma DbDeleteKeeps(cfg: Settings, w: World, r: Record, l0: Ledger, pc: nat, o: Outcome)
    requires pc + 2 < |UndoProgram(Rds)| && Kept(Rds, r, l0, w.ledger)
    requires pc > 0 && Rds in {Vpc, Identity} ==> TargetGone(Rds, w, r)
    ensures DeleteOk(cfg, Rds, w, r, l0, pc, o)
  {
    hide With, Without, Uses;
  }

  lemma InstanceDeleteKeeps(cfg: Settings, w: World, r: Record, l0: Ledger, pc: nat, o: Outcome)
    requires pc + 2 < |UndoProgram(Ec2)| && Kept(Ec2, r, l0, w.ledger)
    requires pc > 0 && Ec2 in {Vpc, Identity} ==> TargetGone(Ec2, w, r)
    ensures DeleteOk(cfg, Ec2, w, r, l0, pc, o)
  {
    hide With, Without, Uses;
  }

  lemma BucketDeleteKeeps(cfg: Settings, w: World, r: Record, l0: Ledger, pc: nat, o: Outcome)
    requires pc + 2 < |UndoProgram(S3)| && Kept(S3, r, l0, w.ledger)
    requires pc > 0 && S3 in {Vpc, Identity} ==> TargetGone(S3, w, r)
    ensures DeleteOk(cfg, S3, w, r, l0, pc, o)
  {
    hide With, Without, Uses;
  }

  lemma PolicyDeleteKeeps(cfg: Settings, w: World, r: Record, l0: Ledger, pc: nat, o: Outcome)
    requires pc + 2 < |UndoProgram(Identity)| && Kept(Identity, r, l0, w.ledger)
    requires pc > 0 && Identity in {Vpc, Identity} ==> TargetGone(Identity, w, r)
    ensures DeleteOk(cfg, Identity, w, r, l0, pc, o)
  {
    hide With, Without, Uses;
  }

  lemma DeleteKeeps(cfg: Settings, step: Step, w: World, r: Record, l0: Ledger, pc: nat, o: Outcome)
    requires HasResources(step) && pc + 2 < |UndoProgram(step)| && Kept(step, r, l0, w.ledger)
    requires pc > 0 && step in {Vpc, Identity} ==> TargetGone(step, w, r)
    requires step == Vpc ==> r.securityGroupId != ""
    ensures DeleteOk(cfg, step, w, r, l0, pc, o)
  {
    hide DeleteOk, Kept, Perform;
    match step {
      case Vpc => GroupDeleteKeeps(cfg, w, r, l0, pc, o);
      case Rds => DbDeleteKeeps(cfg, w, r, l0, pc, o);
      case Ec2 => InstanceDeleteKeeps(cfg, w, r, l0, pc, o);
      case S3 => BucketDeleteKeeps(cfg, w, r, l0, pc, o);
      case Identity => PolicyDeleteKeeps(cfg, w, r, l0, pc, o);
    }
  }

  /** One attempt, from its first action on: the record stays or is emptied, and while the target is there it stays. */
  lemma {:induction false} UndoCarry(cfg: Settings, step: Step, w: World, r: Record, l0: Ledger, pc: nat,
                                     script: seq<Outcome>)
    requires HasResources(step) && pc + 2 <= |UndoProgram(step)| && Kept(step, r, l0, w.ledger)
    requires step == Vpc ==> r.securityGroupId != ""
    requires pc + 2 == |UndoProgram(step)| || (pc > 0 && step in {Vpc, Identity}) ==> TargetGone(step, w, r)
    ensures
      var w' := Carry(cfg, step, w, r, UndoProgram(step), pc, script).0;
      && Kept(step, r, l0, w'.ledger)
      && (w'.store == w.store || (w'.store == w.store[r.id := Blank(step, r)] && TargetGone(step, w', r)))
    decreases |UndoProgram(step)| - pc
  {
    hide Carry, Perform, Kept, Blank, Without, Target;
    var prog := UndoProgram(step);
    if pc + 1 >= |script| {
      CarryOver(cfg, step, w, r, prog, pc, script);
    } else if pc + 2 < |prog| {
      CarryIs(cfg, step, w, r, prog, pc, script);
      DeleteKeeps(cfg, step, w, r, l0, pc, script[pc + 1]);
      var v := Perform(cfg, step, prog[pc], w, r, script[pc + 1]);
      if v.Go? {
        if pc + 3 == |prog| { LastDeleteTakes(cfg, step, w, r, pc, script[pc + 1]); }
        UndoCarry(cfg, step, v.world, r, l0, pc + 1, script);
      }
    } else {
      UndoEnd(cfg, step, w, r, pc, script);
    }
  }

  /** Getting past the deletes means the target is gone. */
  lemma LastDeleteTakes(cfg: Settings, step: Step, w: World, r: Record, pc: nat, o: Outcome)
    requires HasResources(step) && pc + 3 == |UndoProgram(step)|
    requires pc > 0 && step in {Vpc, Identity} ==> TargetGone(step, w, r)
    requires Perform(cfg, step, UndoProgram(step)[pc], w, r, o).Go?
    ensures TargetGone(step, Perform(cfg, step, UndoProgram(step)[pc], w, r, o).world, r)
  {
    hide With, Without, Uses;
  }

  lemma UndoEnd(cfg: Settings, step: Step, w: World, r: Record, pc: nat, script: seq<Outcome>)
    requires HasResources(step) && pc + 2 == |UndoProgram(step)| && pc + 1 < |script|
    ensures
      var w' := Carry(cfg, step, w, r, UndoProgram(step), pc, script).0;
      w'.ledger == w.ledger && (w'.store == w.store || w'.store == w.store[r.id := Blank(step, r)])
  {
    hide Carry, Perform, Blank, Without;
    var prog := UndoProgram(step);
    CarryIs(cfg, step, w, r, prog, pc, script);
    WipeIs(cfg, step, w, r, script[pc + 1]);
    var r' := Blank(step, r);
    if pc + 2 >= |script| {
      CarryOver(cfg, step, w, r', prog, pc + 1, script);
    } else {
      CarryIs(cfg, step, w, r', prog, pc + 1, script);
      PutIs(cfg, step, w, r', script[pc + 2]);
      if script[pc + 2].Ok? { CarryOver(cfg, step, w.(store := w.store[r'.id := r']), r', prog, pc + 2, script); }
    }
  }

  /** What one compensation, cut or failed anywhere, leaves of what was there to undo. */
  lemma UndoAttempt(cfg: Settings, w: World, id: EnvId, step: Step, script: seq<Outcome>)
    requires Undoable(cfg, w, id, step)
    ensures
      var w1 := Serve(cfg, w, id, step, Compensate, script).0;
      var r := w.store[id];
      if w1.store == w.store then TargetGone(step, w1, r) || Undoable(cfg, w1, id, step)
      else w1.store == w.store[id := Blank(step, r)] && TargetGone(step, w1, r)
  {
    hide Carry, Perform, Blank;
    var r := w.store[id];
    if |script| > 0 && script[0].Ok? {
      assert Serve(cfg, w, id, step, Compensate, script) == Carry(cfg, step, w, r, UndoProgram(step), 0, script);
      UndoCarry(cfg, step, w, r, w.ledger, 0, script);
    }
  }

  /** With the target gone and still named, no compensation is acknowledged and none changes anything, whatever its
      faults. */
  lemma GoneRefuses(cfg: Settings, w: World, id: EnvId, step: Step, script: seq<Outcome>)
    requires Real(w, id) && HasResources(step) && TargetGone(step, w, w.store[id]) && Named(step, w.store[id])
             && (step == Identity ==> cfg.connected)
    ensures var (w', answer) := Serve(cfg, w, id, step, Compensate, script); w' == w && answer != Acked
  {
    hide Carry, Perform;
    var r := w.store[id];
    var prog := UndoProgram(step);
    if |script| > 0 && script[0].Ok? {
      assert Serve(cfg, w, id, step, Compensate, script) == Carry(cfg, step, w, r, prog, 0, script);
      if |script| == 1 { CarryStops(cfg, step, w, r, prog, 0, script); } else {
        CarryIs(cfg, step, w, r, prog, 0, script);
        FirstDeleteRefused(cfg, step, w, r, script[1]);
      }
    }
  }

  predicate Named(step: Step, r: Record) {
    KeyName(Target(step, r)) != ""
  }

  lemma FirstDeleteRefused(cfg: Settings, step: Step, w: World, r: Record, o: Outcome)
    requires HasResources(step) && TargetGone(step, w, r) && Named(step, r)
    ensures Perform(cfg, step, UndoProgram(step)[0], w, r, o) == Stop(w, Refused)
  {
    hide With, Without;
  }

  /** Undisturbed, a compensation of what is there succeeds. */
  lemma CalmUndo(cfg: Settings, w: World, id: EnvId, step: Step, script: seq<Outcome>)
    requires Undoable(cfg, w, id, step) && Calm(script)
    ensures
      var (w', answer) := Serve(cfg, w, id, step, Compensate, script);
      answer == Acked && w'.store == w.store[id := Blank(step, w.store[id])] && TargetGone(step, w', w.store[id])
  {
    hide Serve, Blank, Uses;
    IsBlank(step, w.store[id]);
    match step {
      case Vpc => VpcUndo(cfg, w, id, script);
      case Rds => RdsUndo(cfg, w, id, script);
      case Ec2 => Ec2Undo(cfg, w, id, script);
      case S3 => S3Undo(cfg, w, id, script);
      case Identity => IdentityUndo(cfg, w, id, script);
    }
  }

  lemma IsBlank(step: Step, r: Record)
    ensures HasResources(step) ==> Without(step, r) == Blank(step, r)
  {
  }

  /** An emptied record has nothing left to undo. */
  lemma BlankUndo(cfg: Settings, w: World, id: EnvId, step: Step, r: Record, script: seq<Outcome>)
    requires Real(w, id) && HasResources(step) && w.store[id] == Blank(step, r) && r.id == id && Calm(script)
    ensures Serve(cfg, w, id, step, Compensate, script) == (w, Acked)
  {
    hide Carry, Perform, Blank;
    var b := w.store[id];
    BlankTwice(step, r);
    assert w.store == w.store[id := b];
    match step {
      case Vpc => BlankVpc(cfg, w, r, script);
      case Identity =>
        BlankNames(r);
        WipeAndPut(cfg, Identity, w, b, [Wipe, Put], 0, script);
      case _ =>
        BlankNames(r);
        CalmEnd(cfg, step, w, b, [], script);
    }
  }

  lemma BlankTwice(step: Step, r: Record)
    ensures Blank(step, Blank(step, r)) == Blank(step, r)
            && (HasResources(step) ==> Without(step, Blank(step, r)) == Blank(step, r))
    ensures Blank(step, r).id == r.id
  {
  }

  lemma BlankNames(r: Record)
    ensures Blank(Rds, r).rdsInstanceId == "" && Blank(Ec2, r).ec2InstanceId == "" && Blank(S3, r).s3BucketName == ""
    ensures Blank(Identity, r).svidExchangePolicyName == ""
  {
  }

  lemma BlankVpc(cfg: Settings, w: World, r: Record, script: seq<Outcome>)
    requires Real(w, r.id) && w.store[r.id] == Blank(Vpc, r) && Calm(script)
    ensures Serve(cfg, w, r.id, Vpc, Compensate, script) == (w, Acked)
  {
    hide Carry, Perform;
    var b := Blank(Vpc, r);
    assert w.store == w.store[r.id := b];
    assert Serve(cfg, w, r.id, Vpc, Compensate, script) == Carry(cfg, Vpc, w, b, VPC_UNDO, 0, script);
    NothingToDelete(cfg, w, b, script[1]);
    CalmStep(cfg, Vpc, w, b, VPC_UNDO, 0, script);
    NothingToDelete(cfg, w, b, script[2]);
    CalmStep(cfg, Vpc, w, b, VPC_UNDO, 1, script);
    NothingToDelete(cfg, w, b, script[3]);
    CalmStep(cfg, Vpc, w, b, VPC_UNDO, 2, script);
    NothingToDelete(cfg, w, b, script[4]);
    CalmStep(cfg, Vpc, w, b, VPC_UNDO, 3, script);
    BlankTwice(Vpc, r);
    WipeAndPut(cfg, Vpc, w, b, VPC_UNDO, 4, script);
  }

  lemma NothingToDelete(cfg: Settings, w: World, b: Record, o: Outcome)
    requires b.vpcId == "" && b.publicSubnetId == "" && b.privateSubnetId == "" && b.securityGroupId == ""
    ensures forall a | a == DeleteGroup || a == DeletePublicSubnet || a == DeletePrivateSubnet || a == DeleteVpc ::
              Perform(cfg, Vpc, a, w, b, o) == Go(w, b)
  {
    hide Attempt, With, Without;
  }

  /** When a compensation can be repeated: after any first attempt a calm retry is acknowledged if and only if the first
      thing to delete is still there, or the emptied record was stored. Acknowledged, the group is empty and the target
      gone; otherwise nothing changes, now or at any later attempt. */
  lemma UndoRetryIff(cfg: Settings, w: World, id: EnvId, step: Step, first: seq<Outcome>, retry: seq<Outcome>)
    requires Undoable(cfg, w, id, step) && Calm(retry)
    ensures
      var r := w.store[id];
      var w1 := Serve(cfg, w, id, step, Compensate, first).0;
      var (w2, answer) := Serve(cfg, w1, id, step, Compensate, retry);
      && (answer == Acked <==> Target(step, r) in w1.ledger || w1.store != w.store)
      && (answer == Acked ==> w2.store == w.store[id := Blank(step, r)] && Target(step, r) !in w2.ledger)
      && (answer != Acked ==> w2 == w1)
  {
    hide Serve, Blank, Target;
    var r := w.store[id];
    var w1 := Serve(cfg, w, id, step, Compensate, first).0;
    UndoAttempt(cfg, w, id, step, first);
    UndoableIsNamed(cfg, w, id, step);
    if w1.store != w.store {
      BlankMode(step, r);
      BlankUndo(cfg, w1, id, step, r, retry);
    } else if TargetGone(step, w1, r) {
      GoneRefuses(cfg, w1, id, step, retry);
    } else {
      CalmUndo(cfg, w1, id, step, retry);
    }
  }

  lemma UndoableIsNamed(cfg: Settings, w: World, id: EnvId, step: Step)
    requires Undoable(cfg, w, id, step)
    ensures HasResources(step) && Named(step, w.store[id]) && (step == Identity ==> cfg.connected)
    ensures Real(w, id) && Target(step, w.store[id]) in w.ledger
  {
  }

  lemma BlankMode(step: Step, r: Record)
    ensures Blank(step, r).dryRun == r.dryRun && Blank(step, r).id == r.id
  {
  }
}
