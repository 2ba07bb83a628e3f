/** forge-worker's request handling (internal/server/server.go and internal/steps) as a machine whose
    single steps are one external request, one local assignment, one store access or the reply.
    A crash is simply the absence of further steps. */
module Handlers {
  import opened Records
  import opened Ledgers

  /** How one external request goes. */
  datatype Outcome =
    | Ok(value: string)     // performed if the service accepts it; value is what the service chose
    | Fail                  // not performed, error returned
    | Lost(value: string)   // performed if the service accepts it, but an error is returned
    | Partial(count: nat)   // an error after part of the work (version purge); otherwise as Fail

  /** Carried out, whether or not that was answered. */
  predicate Applied(o: Outcome) {
    o.Ok? || o.Lost?
  }

  datatype Answer = Acked | Refused | Missing | NoReply

  datatype Action =
    | Check | Fill | Wipe | Put | Refuse | Probe
    | CreateVpc | EnableDns | WaitVpc | CreatePublicSubnet | CreatePrivateSubnet | CreateGroup | AuthorizeIngress
    | DeleteGroup | DeletePublicSubnet | DeletePrivateSubnet | DeleteVpc
    | NameDb | CreateDb | WaitDbAvailable | DescribeDb | DeleteDb | WaitDbDeleted
    | RunInstance | WaitRunning | DescribeInstance | Terminate | WaitTerminated
    | CreateBucket | EnableVersioning | PutPlaceholder | PurgeVersions | DeleteBucket
    | CreatePolicy | VerifyPolicy | ReloadPolicies | NameEntries | DeletePolicy
    | UploadConfig | WriteEnvFile | DeleteConfig | RemoveEnvFile

  // ----- the real-mode programs, in the order of the source's statements -----

  const VPC_PROGRAM: seq<Action> :=
    [Check, CreateVpc, EnableDns, WaitVpc, CreatePublicSubnet, CreatePrivateSubnet, CreateGroup, AuthorizeIngress, Put]
  const RDS_PROGRAM: seq<Action> := [Check, NameDb, CreateDb, Put, WaitDbAvailable, DescribeDb, Put]
  const EC2_PROGRAM: seq<Action> := [Check, RunInstance, Put, WaitRunning, DescribeInstance, Put]
  const S3_PROGRAM: seq<Action> := [Check, CreateBucket, EnableVersioning, PutPlaceholder, Put]
  const IDENTITY_PROGRAM: seq<Action> := [Check, CreatePolicy, VerifyPolicy, ReloadPolicies, NameEntries, Put]
  const VPC_UNDO: seq<Action> := [DeleteGroup, DeletePublicSubnet, DeletePrivateSubnet, DeleteVpc, Wipe, Put]
  const RDS_UNDO: seq<Action> := [DeleteDb, WaitDbDeleted, Wipe, Put]
  const EC2_UNDO: seq<Action> := [Terminate, WaitTerminated, Wipe, Put]
  const S3_UNDO: seq<Action> := [PurgeVersions, DeleteBucket, Wipe, Put]
  const IDENTITY_UNDO: seq<Action> := [DeletePolicy, ReloadPolicies, Wipe, Put]

  /** What the handler will do, decided from the record as loaded. */
  function Program(cfg: Settings, step: Step, dir: Direction, r: Record): seq<Action> {
    if dir == Forward then ForwardProgram(cfg, step, r) else CompensateProgram(cfg, step, r)
  }

  function ForwardProgram(cfg: Settings, step: Step, r: Record): seq<Action> {
    match step
    case Vpc =>
      if r.dryRun then [Check, Fill, Put]
      else VPC_PROGRAM
    case Rds =>
      if r.dryRun then [Check, Fill, Put]
      else RDS_PROGRAM
    case Ec2 =>
      if r.dryRun then [Check, Fill, Put]
      else EC2_PROGRAM
    case S3 =>
      if r.dryRun then [Check, Fill, Put]
      else S3_PROGRAM
    case Identity =>
      if r.dryRun && !cfg.connected then [Check, Fill, Put]
      else if !cfg.connected then [Check, Refuse]
      else IDENTITY_PROGRAM
    case Config =>
      if r.dryRun then [Check, WriteEnvFile, Put]
      else [Check, UploadConfig, WriteEnvFile, Put]
    case Health => [Check, Probe]
    case Registry => [Check, Fill, Put]
  }

  function CompensateProgram(cfg: Settings, step: Step, r: Record): seq<Action> {
    match step
    case Vpc =>
      if r.dryRun then [Wipe, Put]
      else VPC_UNDO
    case Rds =>
      if r.dryRun then [Wipe, Put]
      else if r.rdsInstanceId == "" then []
      else RDS_UNDO
    case Ec2 =>
      if r.dryRun then [Wipe, Put]
      else if r.ec2InstanceId == "" then []
      else EC2_UNDO
    case S3 =>
      if r.dryRun then [Wipe, Put]
      else if r.s3BucketName == "" then []
      else S3_UNDO
    case Identity =>
      if (r.dryRun && !cfg.connected) || r.svidExchangePolicyName == "" then [Wipe, Put]
      else if !cfg.connected then [Refuse]
      else IDENTITY_UNDO
    case Config =>
      if r.dryRun then [RemoveEnvFile, Put]
      else [DeleteConfig, RemoveEnvFile, Put]
    case Health => []
    case Registry => [Wipe, Put]
  }

  function PolicyOf(cfg: Settings, id: EnvId): (item: Item)
    ensures item.PolicyItem?
  {
    PolicyItem(AppSpiffeId(cfg, id), DbProxySpiffeId(cfg, id), ["read", "write"], 3600)
  }

  function Present(l: Ledger, k: Key): Op {
    if k in l then Query else Reject
  }

  function NameHosts(l: Ledger, k: Key): Op {
    if k in l && l[k].VpcItem? then Change(k, l[k].(dnsHostnames := true)) else Reject
  }

  function OpenPostgres(l: Ledger, k: Key): Op {
    if k in l && l[k].GroupItem? then Change(k, l[k].(ingress := Open(5432, "10.0.0.0/16"))) else Reject
  }

  function ChangeDb(l: Ledger, name: string, state: DbState): Op {
    var k := DbKey(name);
    if k in l && l[k].DbItem? then Change(k, l[k].(dbState := state)) else Reject
  }

  function ChangeInstance(l: Ledger, id: string, state: InstanceState): Op {
    var k := InstanceKey(id);
    if k in l && l[k].InstanceItem? then Change(k, l[k].(instanceState := state)) else Reject
  }

  function Push(l: Ledger, bucket: string, v: Version): Op {
    var k := BucketKey(bucket);
    if k in l && l[k].BucketItem? then Change(k, Pushed(l[k], v)) else Reject
  }

  /** Scope lists are compared as comma-separated strings. */
  function Joined(parts: seq<string>): string {
    if parts == [] then "" else if |parts| == 1 then parts[0] else parts[0] + "," + Joined(parts[1..])
  }

  /** The external request an action makes. */
  function Intent(cfg: Settings, a: Action, r: Record, l: Ledger, value: string): Op {
    match a
    case CreateVpc => Create(VpcKey(value), VpcItem("10.0.0.0/16", false))
    case EnableDns => NameHosts(l, VpcKey(r.vpcId))
    case WaitVpc => Present(l, VpcKey(r.vpcId))
    case CreatePublicSubnet => Create(SubnetKey(value), SubnetItem(r.vpcId, "10.0.1.0/24"))
    case CreatePrivateSubnet => Create(SubnetKey(value), SubnetItem(r.vpcId, "10.0.2.0/24"))
    case CreateGroup => Create(GroupKey(value), GroupItem(r.vpcId, Closed))
    case AuthorizeIngress => OpenPostgres(l, GroupKey(r.securityGroupId))
    case DeleteGroup => Remove(GroupKey(r.securityGroupId))
    case DeletePublicSubnet => Remove(SubnetKey(r.publicSubnetId))
    case DeletePrivateSubnet => Remove(SubnetKey(r.privateSubnetId))
    case DeleteVpc => Remove(VpcKey(r.vpcId))
    case CreateDb => Create(DbKey(r.rdsInstanceId), DbItem(r.securityGroupId, r.rdsPassword, Creating))
    case WaitDbAvailable => ChangeDb(l, r.rdsInstanceId, Available)
    case DescribeDb => Present(l, DbKey(r.rdsInstanceId))
    case DeleteDb => ChangeDb(l, r.rdsInstanceId, Deleting)
    case WaitDbDeleted =>
      var k := DbKey(r.rdsInstanceId);
      if k in l && l[k].DbItem? && l[k].dbState != Deleting then Reject else Erase(k)
    case RunInstance => Create(InstanceKey(value), InstanceItem(r.publicSubnetId, r.securityGroupId, Pending))
    case WaitRunning => ChangeInstance(l, r.ec2InstanceId, InstanceState.Running)
    case Terminate => ChangeInstance(l, r.ec2InstanceId, ShuttingDown)
    case WaitTerminated =>
      var k := InstanceKey(r.ec2InstanceId);
      if k in l && l[k].InstanceItem? && l[k].instanceState != ShuttingDown then Reject else Erase(k)
    case CreateBucket => Create(BucketKey(BucketName(r.id)), BucketItem(false, []))
    case EnableVersioning =>
      var k := BucketKey(r.s3BucketName);
      if k in l && l[k].BucketItem? then Change(k, l[k].(versioned := true)) else Reject
    case PutPlaceholder => Push(l, r.s3BucketName, Placeholder)
    case PurgeVersions =>
      var k := BucketKey(r.s3BucketName);
      if k in l && l[k].BucketItem? then Change(k, l[k].(versions := [])) else Reject
    case DeleteBucket => Remove(BucketKey(r.s3BucketName))
    case CreatePolicy => Create(PolicyKey(PolicyName(r.id)), PolicyOf(cfg, r.id))
    case VerifyPolicy =>
      var k := PolicyKey(r.svidExchangePolicyName);
      if k in l && l[k].PolicyItem? && Joined(l[k].scopes) == Joined(["read", "write"]) && l[k].maxTtl == 3600
      then Query else Reject
    case DeletePolicy => Remove(PolicyKey(r.svidExchangePolicyName))
    case UploadConfig => Push(l, r.s3BucketName, Json(ConfigJsonOf(cfg, r)))
    case WriteEnvFile => Overwrite(FileKey(EnvPath(cfg, r.id)), FileItem(EnvFileOf(cfg, r)))
    case DeleteConfig => Push(l, r.s3BucketName, DeleteMarker)
    case RemoveEnvFile => Erase(FileKey(r.localEnvPath))
    case _ => Query
  }

  /** What a successful action assigns in the handler's copy of the record. */
  function Updated(cfg: Settings, a: Action, r: Record, l: Ledger, value: string): Record {
    match a
    case CreateVpc => r.(vpcId := value)
    case CreatePublicSubnet => r.(publicSubnetId := value)
    case CreatePrivateSubnet => r.(privateSubnetId := value)
    case CreateGroup => r.(securityGroupId := value)
    case NameDb => r.(rdsPassword := value, rdsInstanceId := DbName(r.id))
    case DescribeDb => if DbKey(r.rdsInstanceId) in l && value != "" then r.(rdsEndpoint := value) else r
    case RunInstance => r.(ec2InstanceId := value)
    case DescribeInstance => if InstanceKey(r.ec2InstanceId) in l then r.(ec2PublicIp := value) else r
    case CreateBucket => r.(s3BucketName := BucketName(r.id))
    case CreatePolicy => r.(svidExchangePolicyName := PolicyName(r.id))
    case NameEntries => r.(spireEntryIds := [AppSpiffeId(cfg, r.id), DbProxySpiffeId(cfg, r.id)])
    case WriteEnvFile => r.(localEnvPath := EnvPath(cfg, r.id))
    case RemoveEnvFile => r.(localEnvPath := "")
    case _ => r
  }

  /** Deletes that the code leaves out when the record names nothing to delete. */
  predicate Skips(a: Action, r: Record) {
    match a
    case DeleteGroup => r.securityGroupId == ""
    case DeletePublicSubnet => r.publicSubnetId == ""
    case DeletePrivateSubnet => r.privateSubnetId == ""
    case DeleteVpc => r.vpcId == ""
    case DeleteConfig => r.s3BucketName == ""
    case RemoveEnvFile => r.localEnvPath == ""
    case _ => false
  }

  datatype Verdict =
    | Go(world: World, local: Record)
    | Stop(world: World, answer: Answer)

  /** IsAlreadyDone: rds and ec2 ask AWS, unless in dry-run or nothing is recorded. */
  predicate AsksCloud(step: Step, r: Record) {
    !r.dryRun && ((step == Rds && r.rdsInstanceId != "") || (step == Ec2 && r.ec2InstanceId != ""))
  }

  predicate AlreadyDone(step: Step, r: Record, l: Ledger) {
    if !AsksCloud(step, r) then Marked(step, r)
    else if step == Rds then
      var k := DbKey(r.rdsInstanceId);
      k in l && l[k].DbItem? && l[k].dbState == Available
    else
      var k := InstanceKey(r.ec2InstanceId);
      k in l && l[k].InstanceItem? && l[k].instanceState == InstanceState.Running
  }

  /** A purge that deleted only the first count listed versions. */
  function PurgeSome(l: Ledger, bucket: string, count: nat): Op {
    var k := BucketKey(bucket);
    if k in l && l[k].BucketItem? && count <= |l[k].versions|
    then Change(k, l[k].(versions := l[k].versions[count..]))
    else Query
  }

  /** Actions within the handler or on the store; all others are requests to the outside. */
  predicate Inner(a: Action) {
    match a
    case Check | Fill | Wipe | Put | Refuse | Probe => true
    case _ => false
  }

  /** One external request: the service may refuse it, and the handler stops at any error. */
  function Attempt(cfg: Settings, a: Action, w: World, r: Record, o: Outcome): Verdict {
    if o.Fail? || o.Partial? then Stop(w, Refused)
    else
      var op := Intent(cfg, a, r, w.ledger, o.value);
      if !Legal(w, op) then Stop(w, Refused)
      else
        var w' := Apply(w, op, Short(r.id));
        if o.Lost? then Stop(w', Refused) else Go(w', Updated(cfg, a, r, w.ledger, o.value))
  }

  /** One action with the given outcome. */
  function Perform(cfg: Settings, step: Step, a: Action, w: World, r: Record, o: Outcome): Verdict {
    match a
    case Check =>
      if AsksCloud(step, r) && !o.Ok? then Stop(w, Refused)
      else if AlreadyDone(step, r, w.ledger) then Stop(w, Acked)
      else Go(w, r)
    case Fill => Go(w, With(cfg, step, r))
    case Wipe => Go(w, Without(step, r))
    case NameEntries => Go(w, Updated(cfg, a, r, w.ledger, ""))
    case Refuse => Stop(w, Refused)
    case Put =>
      var stored := w.(store := w.store[r.id := r]);
      if o.Ok? then Go(stored, r) else if o.Lost? then Stop(stored, Refused) else Stop(w, Refused)
    case Probe =>
      if r.failAtHealth then Stop(w, Refused)
      else if r.dryRun || o.Ok? then Go(w, r)
      else Stop(w, Refused)
    case PurgeVersions =>
      if o.Partial? then Stop(Apply(w, PurgeSome(w.ledger, r.s3BucketName, o.count), Short(r.id)), Refused)
      else Attempt(cfg, a, w, r, o)
    case _ =>
      if Skips(a, r) then Go(w, r) else Attempt(cfg, a, w, r, o)
  }

  /** One request handled alone: script[0] is the outcome of loading the record, script[pc + 1] that of action pc;
      the process dies where the script ends. */
  function Serve(cfg: Settings, w: World, envId: string, step: Step, dir: Direction, script: seq<Outcome>): (World,
    Answer) {
    if |script| == 0 then (w, NoReply)
    else if !script[0].Ok? then (w, Refused)
    else if envId !in w.store then (w, Missing)
    else
      var r := w.store[envId];
      Carry(cfg, step, w, r, Program(cfg, step, dir, r), 0, script)
  }

  /** No faults, and a process that lives long enough for any program. */
  predicate Calm(script: seq<Outcome>) {
    |script| >= 11 && forall i | 0 <= i < |script| :: script[i].Ok?
  }

  /** The rest of a handler from action pc on. */
  function Carry(cfg: Settings, step: Step, w: World, r: Record, prog: seq<Action>, pc: nat,
                 script: seq<Outcome>): (World, Answer)
    requires pc <= |prog|
    decreases |prog| - pc
  {
    if pc + 1 >= |script| then (w, NoReply)
    else if pc == |prog| then (w, Acked)
    else
      match Perform(cfg, step, prog[pc], w, r, script[pc + 1])
      case Go(w', r') => Carry(cfg, step, w', r', prog, pc + 1, script)
      case Stop(w', answer) => (w', answer)
  }

  // ----- the same handlers, one step at a time, so that they can interleave -----

  datatype Stage =
    | Loading
    | Working(local: Record, prog: seq<Action>, pc: nat)
    | Replied(answer: Answer)
    | Dead

  datatype Handler = Handler(step: Step, dir: Direction, stage: Stage)

  function Tick(cfg: Settings, w: World, envId: string, h: Handler, o: Outcome): (World, Handler) {
    match h.stage
    case Loading =>
      if !o.Ok? then (w, h.(stage := Replied(Refused)))
      else if envId !in w.store then (w, h.(stage := Replied(Missing)))
      else
        var r := w.store[envId];
        (w, h.(stage := Working(r, Program(cfg, h.step, h.dir, r), 0)))
    case Working(r, prog, pc) =>
      if pc >= |prog| then (w, h.(stage := Replied(Acked)))
      else
        (match Perform(cfg, h.step, prog[pc], w, r, o)
         case Go(w', r') => (w', h.(stage := Working(r', prog, pc + 1)))
         case Stop(w', answer) => (w', h.(stage := Replied(answer))))
    case Replied(_) => (w, h)
    case Dead => (w, h)
  }
}
