/** Environments whose IDs differ in the first 8 characters do not disturb one another, in dry-run or real mode,
    however their handlers interleave. The argument is an unwinding: a step of one environment leaves what another
    can see unchanged, and what it does depends only on what its own environment can see. */
module Isolation {
  import opened Records
  import opened Ledgers
  import opened Handlers
  import opened Sessions

  /** The resource carries this environment's name, or was created under its tag. */
  predicate Mine(cfg: Settings, k: Key, id: EnvId, issued: map<Key, string>) {
    match k
    case DbKey(name) => name == DbName(id)
    case BucketKey(name) => name == BucketName(id)
    case PolicyKey(name) => name == PolicyName(id)
    case FileKey(path) => path == EnvPath(cfg, id)
    case _ => k in issued && issued[k] == Short(id)
  }

  lemma NamesAreInjective(cfg: Settings, a: EnvId, b: EnvId)
    requires DbName(a) == DbName(b) || BucketName(a) == BucketName(b) || PolicyName(a) == PolicyName(b)
             || EnvPath(cfg, a) == EnvPath(cfg, b)
    ensures Short(a) == Short(b)
  {
    assert DbName(a)[10..] == Short(a) && DbName(b)[10..] == Short(b);
    assert PolicyName(a)[11..] == Short(a) && PolicyName(b)[11..] == Short(b);
    var n := |cfg.envDir| + 5;
    assert EnvPath(cfg, a)[n..n + 8] == Short(a) && EnvPath(cfg, b)[n..n + 8] == Short(b);
  }

  lemma OneOwner(cfg: Settings, k: Key, a: EnvId, b: EnvId, issued: map<Key, string>)
    requires Mine(cfg, k, a, issued) && Mine(cfg, k, b, issued)
    ensures Short(a) == Short(b)
  {
    if Short(a) != Short(b) && !CloudNamed(k) {
      NamesAreInjective(cfg, a, b);
    }
  }

  /** Naming nothing, or something of one's own. */
  predicate Own(cfg: Settings, k: Key, id: EnvId, issued: map<Key, string>) {
    KeyName(k) == "" || Mine(cfg, k, id, issued)
  }

  predicate RowSound(cfg: Settings, r: Record, issued: map<Key, string>) {
    && (!r.dryRun ==>
          && Own(cfg, VpcKey(r.vpcId), r.id, issued)
          && Own(cfg, SubnetKey(r.publicSubnetId), r.id, issued)
          && Own(cfg, SubnetKey(r.privateSubnetId), r.id, issued)
          && Own(cfg, GroupKey(r.securityGroupId), r.id, issued)
          && Own(cfg, InstanceKey(r.ec2InstanceId), r.id, issued)
          && Own(cfg, DbKey(r.rdsInstanceId), r.id, issued)
          && Own(cfg, BucketKey(r.s3BucketName), r.id, issued))
    && Own(cfg, PolicyKey(r.svidExchangePolicyName), r.id, issued)
    && Own(cfg, FileKey(r.localEnvPath), r.id, issued)
  }

  /** Real actions belong to real environments. */
  predicate Allowed(step: Step, r: Record, a: Action) {
    match a
    case Fill => r.dryRun || step == Registry
    case Check | Wipe | Put | Refuse | Probe => true
    case CreatePolicy | VerifyPolicy | ReloadPolicies | NameEntries | DeletePolicy => true
    case WriteEnvFile | RemoveEnvFile => true
    case _ => !r.dryRun
  }

  lemma ProgramsAllowed(cfg: Settings, step: Step, dir: Direction, r: Record)
    ensures forall a | a in Program(cfg, step, dir, r) :: Allowed(step, r, a)
  {
  }

  /** Everything a resource depends on was issued to the environment that owns the resource. */
  ghost predicate ItemSound(cfg: Settings, k: Key, item: Item, issued: map<Key, string>) {
    && KeyName(k) != ""
    && (CloudNamed(k) ==> k in issued)
    && forall u :: u in Uses(item) ==>
                     u in issued && forall id: EnvId :: issued[u] == Short(id) ==> Mine(cfg, k, id, issued)
  }

  ghost predicate LedgerSound(cfg: Settings, w: World) {
    && (forall k :: k in w.ledger ==> ItemSound(cfg, k, w.ledger[k], w.issued))
    && (forall k :: k in w.issued ==> CloudNamed(k) && KeyName(k) != "")
  }

  ghost predicate StoreSound(cfg: Settings, w: World) {
    forall e :: e in w.store ==> w.store[e].id == e && RowSound(cfg, w.store[e], w.issued)
  }

  ghost predicate WorldSound(cfg: Settings, w: World) {
    LedgerSound(cfg, w) && StoreSound(cfg, w)
  }

  ghost predicate HandlerSound(cfg: Settings, h: Hid, handler: Handler, issued: map<Key, string>) {
    handler.stage.Working? ==>
      && handler.stage.local.id == h.envId
      && RowSound(cfg, handler.stage.local, issued)
      && forall a :: a in handler.stage.prog ==> Allowed(handler.step, handler.stage.local, a)
  }

  ghost predicate SysSound(cfg: Settings, s: Sys) {
    && WorldSound(cfg, s.world)
    && (forall h :: h in s.handlers ==> HandlerSound(cfg, h, s.handlers[h], s.world.issued))
    && (forall h :: h in s.handlers && s.handlers[h].stage.Working? ==> h.envId in s.world.store)
  }

  // ----- operations -----

  /** The request concerns the environment's own resources, or a new one. */
  predicate OpOwn(cfg: Settings, op: Op, w: World, id: EnvId) {
    match op
    case Create(key, item) =>
      && (CloudNamed(key) || Own(cfg, key, id, w.issued))
      && (forall u | u in Uses(item) :: CloudNamed(u) && Own(cfg, u, id, w.issued))
    case Remove(key) => Own(cfg, key, id, w.issued)
    case Change(key, item) => Own(cfg, key, id, w.issued) && key in w.ledger && Uses(item) == Uses(w.ledger[key])
    case Overwrite(key, item) => Mine(cfg, key, id, w.issued) && !CloudNamed(key) && Uses(item) == {}
    case Erase(key) => Own(cfg, key, id, w.issued)
    case Query => true
    case Reject => true
  }

  predicate Creates(a: Action) {
    match a
    case CreateVpc | CreatePublicSubnet | CreatePrivateSubnet | CreateGroup => true
    case CreateDb | RunInstance | CreateBucket | CreatePolicy => true
    case _ => false
  }

  /** The cloud picks the identifier. */
  predicate Issues(a: Action) {
    match a
    case CreateVpc | CreatePublicSubnet | CreatePrivateSubnet | CreateGroup | RunInstance => true
    case _ => false
  }

  /** Requests that change something that exists. */
  predicate Changes(a: Action) {
    match a
    case EnableDns | AuthorizeIngress | WaitDbAvailable | DeleteDb | WaitRunning | Terminate => true
    case EnableVersioning | PutPlaceholder | PurgeVersions | UploadConfig | DeleteConfig => true
    case _ => false
  }

  lemma ChangeOwn(cfg: Settings, step: Step, a: Action, w: World, r: Record, value: string)
    requires Changes(a) && RowSound(cfg, r, w.issued) && Allowed(step, r, a)
    ensures OpOwn(cfg, Intent(cfg, a, r, w.ledger, value), w, r.id)
  {
    hide EnvFileOf, ConfigJsonOf, Mine, Short;
  }

  lemma CreateOwn(cfg: Settings, step: Step, a: Action, w: World, r: Record, value: string)
    requires Creates(a) && RowSound(cfg, r, w.issued) && Allowed(step, r, a)
    ensures OpOwn(cfg, Intent(cfg, a, r, w.ledger, value), w, r.id)
  {
    hide EnvPath, Short, AppSpiffeId, DbProxySpiffeId;
  }

  lemma OtherOwn(cfg: Settings, step: Step, a: Action, w: World, r: Record, value: string)
    requires !Creates(a) && !Changes(a) && RowSound(cfg, r, w.issued) && Allowed(step, r, a)
    ensures OpOwn(cfg, Intent(cfg, a, r, w.ledger, value), w, r.id)
  {
    hide RowSound, Allowed, Intent, OpOwn;
    if a == WriteEnvFile { WriteOwn(cfg, w, r, value); } else { RemoveOwn(cfg, step, a, w, r, value); }
  }

  lemma WriteOwn(cfg: Settings, w: World, r: Record, value: string)
    ensures OpOwn(cfg, Intent(cfg, WriteEnvFile, r, w.ledger, value), w, r.id)
  {
    hide EnvFileOf, EnvPath;
  }

  predicate OfNetwork(a: Action) {
    a in {WaitVpc, DeleteGroup, DeletePublicSubnet, DeletePrivateSubnet, DeleteVpc}
  }

  lemma RemoveOwn(cfg: Settings, step: Step, a: Action, w: World, r: Record, value: string)
    requires !Creates(a) && !Changes(a) && a != WriteEnvFile && RowSound(cfg, r, w.issued) && Allowed(step, r, a)
    ensures OpOwn(cfg, Intent(cfg, a, r, w.ledger, value), w, r.id)
  {
    hide Intent, OpOwn, RowSound;
    if OfNetwork(a) { NetworkOwn(cfg, step, a, w, r, value); } else { RemainingOwn(cfg, step, a, w, r, value); }
  }

  lemma NetworkOwn(cfg: Settings, step: Step, a: Action, w: World, r: Record, value: string)
    requires OfNetwork(a) && RowSound(cfg, r, w.issued) && Allowed(step, r, a)
    ensures OpOwn(cfg, Intent(cfg, a, r, w.ledger, value), w, r.id)
  {
    hide Mine, Short, Joined, Uses;
  }

  lemma RemainingOwn(cfg: Settings, step: Step, a: Action, w: World, r: Record, value: string)
    requires !Creates(a) && !Changes(a) && a != WriteEnvFile && RowSound(cfg, r, w.issued) && Allowed(step, r, a)
             && !OfNetwork(a)
    ensures OpOwn(cfg, Intent(cfg, a, r, w.ledger, value), w, r.id)
  {
    hide EnvFileOf, ConfigJsonOf, Mine, Short, Joined, PolicyOf, Pushed, EnvPath, DbName, BucketName, PolicyName, Uses;
  }

  lemma IntentOwn(cfg: Settings, step: Step, a: Action, w: World, r: Record, value: string)
    requires RowSound(cfg, r, w.issued) && Allowed(step, r, a)
    ensures OpOwn(cfg, Intent(cfg, a, r, w.ledger, value), w, r.id)
  {
    hide Intent, RowSound, Allowed, OpOwn;
    if Creates(a) {
      CreateOwn(cfg, step, a, w, r, value);
    } else if Changes(a) {
      ChangeOwn(cfg, step, a, w, r, value);
    } else {
      OtherOwn(cfg, step, a, w, r, value);
    }
  }

  // ----- what an environment sees -----

  /** Two worlds look the same to an environment; the first may have issued more identifiers. */
  ghost predicate SameFor(cfg: Settings, w1: World, w2: World, id: EnvId) {
    && (id in w1.store <==> id in w2.store)
    && (id in w1.store ==> w1.store[id] == w2.store[id])
    && w2.issued.Keys <= w1.issued.Keys
    && (forall k :: Mine(cfg, k, id, w1.issued) <==> Mine(cfg, k, id, w2.issued))
    && (forall k :: Mine(cfg, k, id, w1.issued) ==> (k in w1.ledger <==> k in w2.ledger))
    && (forall k :: Mine(cfg, k, id, w1.issued) && k in w1.ledger && k in w2.ledger ==> w1.ledger[k] == w2.ledger[k])
  }

  /** A request by one environment is invisible to another. */
  lemma OpElsewhere(cfg: Settings, w: World, op: Op, me: EnvId, other: EnvId)
    requires LedgerSound(cfg, w) && OpOwn(cfg, op, w, me) && Legal(w, op) && Short(me) != Short(other)
    ensures SameFor(cfg, Apply(w, op, Short(me)), w, other)
  {
    hide DbName, BucketName, PolicyName, EnvPath;
    var w' := Apply(w, op, Short(me));
    forall k ensures Mine(cfg, k, other, w'.issued) <==> Mine(cfg, k, other, w.issued) {
    }
    forall k | Mine(cfg, k, other, w'.issued)
      ensures k in w'.ledger <==> k in w.ledger
      ensures k in w.ledger && k in w'.ledger ==> w'.ledger[k] == w.ledger[k]
    {
      if Mine(cfg, k, me, w.issued) { OneOwner(cfg, k, me, other, w.issued); }
      if Mine(cfg, k, me, w'.issued) { OneOwner(cfg, k, me, other, w'.issued); }
    }
  }

  lemma UserIsMine(cfg: Settings, w: World, k: Key, used: Key, id: EnvId)
    requires LedgerSound(cfg, w) && k in w.ledger && used in Uses(w.ledger[k]) && Mine(cfg, used, id, w.issued)
    ensures Mine(cfg, k, id, w.issued)
  {
    hide DbName, BucketName, PolicyName, EnvPath;
    assert ItemSound(cfg, k, w.ledger[k], w.issued);
  }

  /** Whether a request is accepted depends only on what its environment sees. */
  lemma SameLegal(cfg: Settings, w1: World, w2: World, op: Op, id: EnvId)
    requires LedgerSound(cfg, w1) && LedgerSound(cfg, w2) && SameFor(cfg, w1, w2, id)
    requires OpOwn(cfg, op, w1, id) && OpOwn(cfg, op, w2, id)
    requires op.Create? && CloudNamed(op.key) ==> op.key !in w1.issued
    ensures Legal(w1, op) == Legal(w2, op)
  {
    hide DbName, BucketName, PolicyName, EnvPath;
    match op {
      case Create(key, item) =>
        assert key in w1.ledger <==> key in w2.ledger;
        assert forall u | u in Uses(item) :: u in w1.ledger <==> u in w2.ledger;
      case Remove(key) =>
        if key in w1.ledger && key in w2.ledger {
          forall k | k in w1.ledger && key in Uses(w1.ledger[k]) ensures k in w2.ledger && key in Uses(w2.ledger[k]) {
            UserIsMine(cfg, w1, k, key, id);
          }
          forall k | k in w2.ledger && key in Uses(w2.ledger[k]) ensures k in w1.ledger && key in Uses(w1.ledger[k]) {
            UserIsMine(cfg, w2, k, key, id);
          }
        }
      case Change(key, _) =>
      case _ =>
    }
  }

  lemma SameApply(cfg: Settings, w1: World, w2: World, op: Op, id: EnvId)
    requires SameFor(cfg, w1, w2, id) && Legal(w1, op) && Legal(w2, op)
    ensures SameFor(cfg, Apply(w1, op, Short(id)), Apply(w2, op, Short(id)), id)
  {
    hide DbName, BucketName, PolicyName, EnvPath, Uses;
    var x1, x2 := Apply(w1, op, Short(id)), Apply(w2, op, Short(id));
    forall k
      ensures Mine(cfg, k, id, x1.issued) <==> Mine(cfg, k, id, x2.issued)
      ensures Mine(cfg, k, id, x1.issued) ==> SeenAlike(x1.ledger, x2.ledger, k)
    {
      assert Mine(cfg, k, id, w1.issued) <==> Mine(cfg, k, id, w2.issued);
      assert Mine(cfg, k, id, w1.issued) ==> SeenAlike(w1.ledger, w2.ledger, k);
    }
  }

  lemma ApplySound(cfg: Settings, w: World, op: Op, id: EnvId)
    requires LedgerSound(cfg, w) && StoreSound(cfg, w) && OpOwn(cfg, op, w, id) && Legal(w, op)
    ensures
      var w' := Apply(w, op, Short(id));
      LedgerSound(cfg, w') && StoreSound(cfg, w') && IssuedGrows(w, w')
  {
    hide BucketName, PolicyName, EnvPath, RowSound;
    var w' := Apply(w, op, Short(id));
    assert IssuedGrows(w, w');
    forall k | k in w'.ledger ensures ItemSound(cfg, k, w'.ledger[k], w'.issued) {
      ApplyItemSound(cfg, w, op, id, k);
    }
    forall e | e in w'.store ensures w'.store[e].id == e && RowSound(cfg, w'.store[e], w'.issued) {
      RowStaysSound(cfg, w.store[e], w, w');
    }
  }

  lemma ApplyItemSound(cfg: Settings, w: World, op: Op, id: EnvId, k: Key)
    requires LedgerSound(cfg, w) && OpOwn(cfg, op, w, id) && Legal(w, op) && k in Apply(w, op, Short(id)).ledger
    ensures var w' := Apply(w, op, Short(id)); ItemSound(cfg, k, w'.ledger[k], w'.issued)
  {
    var w' := Apply(w, op, Short(id));
    if k in w.ledger { assert ItemSound(cfg, k, w.ledger[k], w.issued); }
    forall u | u in Uses(w'.ledger[k])
      ensures u in w'.issued && forall id': EnvId :: w'.issued[u] == Short(id') ==> Mine(cfg, k, id', w'.issued)
    {
      if op.Create? && op.key == k {
        assert u in w.ledger && ItemSound(cfg, u, w.ledger[u], w.issued);
        assert Mine(cfg, u, id, w.issued);
      } else if op.Change? && op.key == k {
        assert ItemSound(cfg, k, w.ledger[k], w.issued);
        assert u in Uses(w.ledger[k]);
      }
    }
  }

  /** Identifiers are never reissued. */
  predicate IssuedGrows(w: World, w': World) {
    forall k :: k in w.issued ==> k in w'.issued && w'.issued[k] == w.issued[k]
  }

  lemma RowStaysSound(cfg: Settings, r: Record, w: World, w': World)
    requires RowSound(cfg, r, w.issued) && IssuedGrows(w, w')
    ensures RowSound(cfg, r, w'.issued)
  {
    hide DbName, BucketName, PolicyName, EnvPath;
  }

  // ----- actions -----

  lemma IntentSame(cfg: Settings, step: Step, a: Action, w1: World, w2: World, r: Record, value: string)
    requires RowSound(cfg, r, w1.issued) && RowSound(cfg, r, w2.issued) && Allowed(step, r, a)
    requires WorldSound(cfg, w1) && WorldSound(cfg, w2) && SameFor(cfg, w1, w2, r.id)
    ensures Intent(cfg, a, r, w1.ledger, value) == Intent(cfg, a, r, w2.ledger, value)
    ensures Updated(cfg, a, r, w1.ledger, value) == Updated(cfg, a, r, w2.ledger, value)
  {
    hide DbName, BucketName, PolicyName, EnvPath, EnvFileOf, ConfigJsonOf, PolicyOf, AppSpiffeId, DbProxySpiffeId,
      RowSound, LedgerSound, StoreSound, SameFor, Short, Joined, Pushed, Updated;
    OwnSeen(cfg, w1, w2, r);
    UpdatedSame(cfg, step, a, w1, w2, r, value);
  }

  lemma UpdatedSame(cfg: Settings, step: Step, a: Action, w1: World, w2: World, r: Record, value: string)
    requires RowSound(cfg, r, w1.issued) && RowSound(cfg, r, w2.issued) && Allowed(step, r, a)
    requires WorldSound(cfg, w1) && WorldSound(cfg, w2) && SameFor(cfg, w1, w2, r.id)
    ensures Updated(cfg, a, r, w1.ledger, value) == Updated(cfg, a, r, w2.ledger, value)
  {
    hide DbName, BucketName, PolicyName, EnvPath, AppSpiffeId, DbProxySpiffeId, RowSound, LedgerSound, StoreSound,
      SameFor, Short;
    OwnSeen(cfg, w1, w2, r);
  }

  /** The part of the ledger that a record's own fields lead to. */
  predicate SeenAlike(l1: Ledger, l2: Ledger, k: Key) {
    (k in l1 <==> k in l2) && (k in l1 ==> l1[k] == l2[k])
  }

  lemma OwnAlike(cfg: Settings, w1: World, w2: World, k: Key, id: EnvId)
    requires LedgerSound(cfg, w1) && LedgerSound(cfg, w2) && SameFor(cfg, w1, w2, id) && Own(cfg, k, id, w1.issued)
    ensures SeenAlike(w1.ledger, w2.ledger, k)
  {
    hide Mine;
    if k in w1.ledger { assert ItemSound(cfg, k, w1.ledger[k], w1.issued); }
    if k in w2.ledger { assert ItemSound(cfg, k, w2.ledger[k], w2.issued); }
  }

  lemma OwnSeen(cfg: Settings, w1: World, w2: World, r: Record)
    requires RowSound(cfg, r, w1.issued) && LedgerSound(cfg, w1) && LedgerSound(cfg, w2) && SameFor(cfg, w1, w2, r.id)
    ensures !r.dryRun ==>
              && SeenAlike(w1.ledger, w2.ledger, VpcKey(r.vpcId))
              && SeenAlike(w1.ledger, w2.ledger, GroupKey(r.securityGroupId))
              && SeenAlike(w1.ledger, w2.ledger, InstanceKey(r.ec2InstanceId))
              && SeenAlike(w1.ledger, w2.ledger, DbKey(r.rdsInstanceId))
              && SeenAlike(w1.ledger, w2.ledger, BucketKey(r.s3BucketName))
    ensures SeenAlike(w1.ledger, w2.ledger, PolicyKey(r.svidExchangePolicyName))
  {
    hide Mine, LedgerSound, SameFor, SeenAlike;
    OwnAlike(cfg, w1, w2, PolicyKey(r.svidExchangePolicyName), r.id);
    if !r.dryRun {
      OwnAlike(cfg, w1, w2, VpcKey(r.vpcId), r.id);
      OwnAlike(cfg, w1, w2, GroupKey(r.securityGroupId), r.id);
      OwnAlike(cfg, w1, w2, InstanceKey(r.ec2InstanceId), r.id);
      OwnAlike(cfg, w1, w2, DbKey(r.rdsInstanceId), r.id);
      OwnAlike(cfg, w1, w2, BucketKey(r.s3BucketName), r.id);
    }
  }

  /** The cloud answers a creation with an identifier it has not used before. */
  predicate FreshAnswer(cfg: Settings, a: Action, w: World, r: Record, o: Outcome) {
    (o.Ok? || o.Lost?) ==>
      var op := Intent(cfg, a, r, w.ledger, o.value);
      op.Create? && CloudNamed(op.key) ==> op.key !in w.issued
  }

  lemma UpdatedSound(cfg: Settings, step: Step, a: Action, w: World, r: Record, value: string)
    requires RowSound(cfg, r, w.issued) && Allowed(step, r, a) && Legal(w, Intent(cfg, a, r, w.ledger, value))
    ensures
      var w' := Apply(w, Intent(cfg, a, r, w.ledger, value), Short(r.id));
      var r' := Updated(cfg, a, r, w.ledger, value);
      r'.id == r.id && r'.dryRun == r.dryRun && RowSound(cfg, r', w'.issued)
  {
    hide BucketName, PolicyName, EnvPath, DbName, EnvFileOf, ConfigJsonOf, PolicyOf, AppSpiffeId, DbProxySpiffeId, Uses,
      Pushed;
    if Issues(a) {
      CreatedSound(cfg, a, w, r, value);
    } else {
      hide RowSound, Updated;
      NamedSound(cfg, a, w, r, value);
      IssuesNothing(cfg, a, w, r, value);
    }
  }

  lemma CreatedSound(cfg: Settings, a: Action, w: World, r: Record, value: string)
    requires Issues(a)
    requires RowSound(cfg, r, w.issued) && Legal(w, Intent(cfg, a, r, w.ledger, value))
    ensures
      var w' := Apply(w, Intent(cfg, a, r, w.ledger, value), Short(r.id));
      var r' := Updated(cfg, a, r, w.ledger, value);
      r'.id == r.id && r'.dryRun == r.dryRun && RowSound(cfg, r', w'.issued)
  {
    hide BucketName, PolicyName, EnvPath, DbName, EnvFileOf, ConfigJsonOf, PolicyOf, AppSpiffeId, DbProxySpiffeId, Uses,
      Pushed, RowSound;
    var w' := Apply(w, Intent(cfg, a, r, w.ledger, value), Short(r.id));
    RowStaysSound(cfg, r, w, w');
    OneFieldSound(cfg, a, r, value, w'.issued);
  }

  lemma OneFieldSound(cfg: Settings, a: Action, r: Record, value: string, issued: map<Key, string>)
    requires RowSound(cfg, r, issued)
    requires match a
             case CreateVpc => Mine(cfg, VpcKey(value), r.id, issued)
             case CreatePublicSubnet => Mine(cfg, SubnetKey(value), r.id, issued)
             case CreatePrivateSubnet => Mine(cfg, SubnetKey(value), r.id, issued)
             case CreateGroup => Mine(cfg, GroupKey(value), r.id, issued)
             case RunInstance => Mine(cfg, InstanceKey(value), r.id, issued)
             case _ => false
    ensures forall l: Ledger :: RowSound(cfg, Updated(cfg, a, r, l, value), issued)
  {
    hide BucketName, PolicyName, EnvPath, DbName, Mine;
  }

  lemma NamedSound(cfg: Settings, a: Action, w: World, r: Record, value: string)
    requires !Issues(a)
    requires RowSound(cfg, r, w.issued)
    ensures
      var r' := Updated(cfg, a, r, w.ledger, value);
      r'.id == r.id && r'.dryRun == r.dryRun && RowSound(cfg, r', w.issued)
  {
    hide AppSpiffeId, DbProxySpiffeId, DbName, PolicyName, EnvPath, BucketName;
  }

  lemma IssuesNothing(cfg: Settings, a: Action, w: World, r: Record, value: string)
    requires !Issues(a)
    ensures Apply(w, Intent(cfg, a, r, w.ledger, value), Short(r.id)).issued == w.issued
  {
    hide BucketName, PolicyName, EnvPath, EnvFileOf, ConfigJsonOf, PolicyOf, Pushed, Short;
  }

  lemma LocalSound(cfg: Settings, step: Step, a: Action, w: World, r: Record)
    requires RowSound(cfg, r, w.issued) && Allowed(step, r, a) && a in {Fill, Wipe, NameEntries}
    ensures
      var r' := if a == Fill then With(cfg, step, r) else if a == Wipe then Without(step, r)
                else Updated(cfg, a, r, w.ledger, "");
      r'.id == r.id && r'.dryRun == r.dryRun && RowSound(cfg, r', w.issued)
  {
    if a == Fill {
      hide Updated, Without, Short;
    } else if a == Wipe {
      WipeSound(cfg, step, w, r);
    } else {
      NamedSound(cfg, a, w, r, "");
    }
  }

  lemma WipeSound(cfg: Settings, step: Step, w: World, r: Record)
    requires RowSound(cfg, r, w.issued)
    ensures var r' := Without(step, r); r'.id == r.id && r'.dryRun == r.dryRun && RowSound(cfg, r', w.issued)
  {
    hide DbName, PolicyName, EnvPath, BucketName;
  }

  /** What is kept by a step of one's own. */
  ghost predicate VerdictSound(cfg: Settings, w: World, r: Record, v: Verdict) {
    && WorldSound(cfg, v.world) && IssuedGrows(w, v.world)
    && v.world.store.Keys <= w.store.Keys + {r.id}
    && (v.Go? ==> v.local.id == r.id && v.local.dryRun == r.dryRun && RowSound(cfg, v.local, v.world.issued))
  }

  lemma AttemptSound(cfg: Settings, step: Step, a: Action, w: World, r: Record, o: Outcome)
    requires WorldSound(cfg, w) && RowSound(cfg, r, w.issued) && Allowed(step, r, a)
    ensures VerdictSound(cfg, w, r, Attempt(cfg, a, w, r, o))
  {
    hide Intent, Updated, RowSound, LedgerSound, StoreSound, Legal;
    if o.Ok? || o.Lost? {
      var op := Intent(cfg, a, r, w.ledger, o.value);
      if Legal(w, op) {
        IntentOwn(cfg, step, a, w, r, o.value);
        ApplySound(cfg, w, op, r.id);
        UpdatedSound(cfg, step, a, w, r, o.value);
      }
    }
  }

  lemma AttemptElsewhere(cfg: Settings, step: Step, a: Action, w: World, r: Record, o: Outcome, other: EnvId)
    requires WorldSound(cfg, w) && RowSound(cfg, r, w.issued) && Allowed(step, r, a) && Short(r.id) != Short(other)
    ensures SameFor(cfg, Attempt(cfg, a, w, r, o).world, w, other)
  {
    hide Intent, Updated, RowSound, LedgerSound, StoreSound, Legal, Mine, Short;
    if o.Ok? || o.Lost? {
      var op := Intent(cfg, a, r, w.ledger, o.value);
      if Legal(w, op) {
        IntentOwn(cfg, step, a, w, r, o.value);
        OpElsewhere(cfg, w, op, r.id, other);
      }
    }
  }

  /** The same decision, the same local copy, and worlds that still look the same. */
  ghost predicate SameVerdict(cfg: Settings, v1: Verdict, v2: Verdict, id: EnvId) {
    && SameFor(cfg, v1.world, v2.world, id)
    && (v1.Go? <==> v2.Go?)
    && (v1.Go? ==> v1.local == v2.local)
    && (v1.Stop? && v2.Stop? ==> v1.answer == v2.answer)
  }

  lemma AttemptSame(cfg: Settings, step: Step, a: Action, w1: World, w2: World, r: Record, o: Outcome)
    requires WorldSound(cfg, w1) && WorldSound(cfg, w2) && SameFor(cfg, w1, w2, r.id)
    requires RowSound(cfg, r, w1.issued) && RowSound(cfg, r, w2.issued) && Allowed(step, r, a)
             && FreshAnswer(cfg, a, w1, r, o)
    ensures SameVerdict(cfg, Attempt(cfg, a, w1, r, o), Attempt(cfg, a, w2, r, o), r.id)
  {
    hide Intent, Updated, RowSound, LedgerSound, StoreSound, Legal, Mine, Short, SameFor;
    if o.Ok? || o.Lost? {
      var op := Intent(cfg, a, r, w1.ledger, o.value);
      IntentSame(cfg, step, a, w1, w2, r, o.value);
      IntentOwn(cfg, step, a, w1, r, o.value);
      IntentOwn(cfg, step, a, w2, r, o.value);
      SameLegal(cfg, w1, w2, op, r.id);
      if Legal(w1, op) {
        SameApply(cfg, w1, w2, op, r.id);
      }
    }
  }

  lemma PurgeOwn(cfg: Settings, step: Step, w: World, r: Record, count: nat)
    requires RowSound(cfg, r, w.issued) && Allowed(step, r, PurgeVersions)
    ensures
      var op := PurgeSome(w.ledger, r.s3BucketName, count);
      OpOwn(cfg, op, w, r.id) && Legal(w, op) && (op.Change? || op.Query?)
  {
  }

  lemma PerformSound(cfg: Settings, step: Step, a: Action, w: World, r: Record, o: Outcome)
    requires WorldSound(cfg, w) && RowSound(cfg, r, w.issued) && Allowed(step, r, a)
    ensures VerdictSound(cfg, w, r, Perform(cfg, step, a, w, r, o))
  {
    hide Attempt, Perform, RowSound, LedgerSound, Skips, OpOwn;
    if Inner(a) || a == NameEntries || (a == PurgeVersions && o.Partial?) {
      InsideSound(cfg, step, a, w, r, o);
    } else {
      PerformIs(cfg, step, a, w, r, o);
      AttemptSound(cfg, step, a, w, r, o);
    }
  }

  lemma InsideSound(cfg: Settings, step: Step, a: Action, w: World, r: Record, o: Outcome)
    requires WorldSound(cfg, w) && RowSound(cfg, r, w.issued) && Allowed(step, r, a)
    requires Inner(a) || a == NameEntries || (a == PurgeVersions && o.Partial?)
    ensures VerdictSound(cfg, w, r, Perform(cfg, step, a, w, r, o))
  {
    hide Attempt, With, Without, Updated, AlreadyDone, AsksCloud, RowSound, LedgerSound, Apply, Skips, Short, PurgeSome,
      Legal, OpOwn;
    if a in {Fill, Wipe, NameEntries} {
      LocalSound(cfg, step, a, w, r);
    } else if a == PurgeVersions {
      PurgeOwn(cfg, step, w, r, o.count);
      ApplySound(cfg, w, PurgeSome(w.ledger, r.s3BucketName, o.count), r.id);
      ApplyKeepsStore(w, PurgeSome(w.ledger, r.s3BucketName, o.count), Short(r.id));
    } else if a == Put {
      PutSound(cfg, w, r);
    }
  }

  lemma PutSound(cfg: Settings, w: World, r: Record)
    requires WorldSound(cfg, w) && RowSound(cfg, r, w.issued)
    ensures WorldSound(cfg, w.(store := w.store[r.id := r]))
  {
    hide RowSound, ItemSound;
  }

  lemma ApplyKeepsStore(w: World, op: Op, tag: string)
    ensures Apply(w, op, tag).store == w.store
  {
  }

  lemma SameAsItself(cfg: Settings, w: World, id: EnvId)
    ensures SameFor(cfg, w, w, id)
  {
  }

  lemma PutElsewhere(cfg: Settings, w: World, r: Record, other: EnvId)
    requires Short(r.id) != Short(other)
    ensures SameFor(cfg, w.(store := w.store[r.id := r]), w, other)
  {
  }

  lemma PerformElsewhere(cfg: Settings, step: Step, a: Action, w: World, r: Record, o: Outcome, other: EnvId)
    requires WorldSound(cfg, w) && RowSound(cfg, r, w.issued) && Allowed(step, r, a) && Short(r.id) != Short(other)
    ensures SameFor(cfg, Perform(cfg, step, a, w, r, o).world, w, other)
  {
    hide Attempt, With, Without, Updated, AlreadyDone, AsksCloud, RowSound, LedgerSound, Apply, Skips, Mine, PurgeSome,
      Legal, OpOwn, SameFor, Allowed, Short, StoreSound;
    SameAsItself(cfg, w, other);
    if a == Put { PutElsewhere(cfg, w, r, other); }
    AttemptElsewhere(cfg, step, a, w, r, o, other);
    if a == PurgeVersions && o.Partial? {
      PurgeOwn(cfg, step, w, r, o.count);
      OpElsewhere(cfg, w, PurgeSome(w.ledger, r.s3BucketName, o.count), r.id, other);
    }
  }

  lemma PerformSame(cfg: Settings, step: Step, a: Action, w1: World, w2: World, r: Record, o: Outcome)
    requires WorldSound(cfg, w1) && WorldSound(cfg, w2) && SameFor(cfg, w1, w2, r.id)
    requires RowSound(cfg, r, w1.issued) && RowSound(cfg, r, w2.issued) && Allowed(step, r, a)
             && FreshAnswer(cfg, a, w1, r, o)
    ensures SameVerdict(cfg, Perform(cfg, step, a, w1, r, o), Perform(cfg, step, a, w2, r, o), r.id)
  {
    hide Attempt, Perform, RowSound, WorldSound, Skips, SameFor, FreshAnswer, Allowed;
    if Inner(a) || a == NameEntries || (a == PurgeVersions && o.Partial?) {
      InsideSame(cfg, step, a, w1, w2, r, o);
    } else {
      PerformIs(cfg, step, a, w1, r, o);
      PerformIs(cfg, step, a, w2, r, o);
      AttemptSame(cfg, step, a, w1, w2, r, o);
    }
  }

  lemma InsideSame(cfg: Settings, step: Step, a: Action, w1: World, w2: World, r: Record, o: Outcome)
    requires WorldSound(cfg, w1) && WorldSound(cfg, w2) && SameFor(cfg, w1, w2, r.id)
    requires RowSound(cfg, r, w1.issued) && RowSound(cfg, r, w2.issued) && Allowed(step, r, a)
             && FreshAnswer(cfg, a, w1, r, o)
    requires Inner(a) || a == NameEntries || (a == PurgeVersions && o.Partial?)
    ensures SameVerdict(cfg, Perform(cfg, step, a, w1, r, o), Perform(cfg, step, a, w2, r, o), r.id)
  {
    hide Attempt, With, Without, AlreadyDone, AsksCloud, RowSound, WorldSound, Apply, Skips, SameFor, Short, PurgeSome,
      FreshAnswer, Updated, Allowed;
    if a == Check {
      DoneSame(cfg, step, w1, w2, r);
    } else if a == Put {
      PutSame(cfg, w1, w2, r);
    } else if a == NameEntries {
      IntentSame(cfg, step, a, w1, w2, r, "");
    } else if a == PurgeVersions {
      PurgeSame(cfg, step, w1, w2, r, o.count);
    }
  }

  lemma PutSame(cfg: Settings, w1: World, w2: World, r: Record)
    requires SameFor(cfg, w1, w2, r.id)
    ensures SameFor(cfg, w1.(store := w1.store[r.id := r]), w2.(store := w2.store[r.id := r]), r.id)
  {
    hide Mine;
  }

  lemma DoneSame(cfg: Settings, step: Step, w1: World, w2: World, r: Record)
    requires WorldSound(cfg, w1) && WorldSound(cfg, w2) && SameFor(cfg, w1, w2, r.id) && RowSound(cfg, r, w1.issued)
    ensures AlreadyDone(step, r, w1.ledger) == AlreadyDone(step, r, w2.ledger)
  {
    hide LedgerSound, StoreSound, SameFor, RowSound;
    OwnSeen(cfg, w1, w2, r);
  }

  lemma PurgeSame(cfg: Settings, step: Step, w1: World, w2: World, r: Record, count: nat)
    requires WorldSound(cfg, w1) && WorldSound(cfg, w2) && SameFor(cfg, w1, w2, r.id)
    requires RowSound(cfg, r, w1.issued) && RowSound(cfg, r, w2.issued) && Allowed(step, r, PurgeVersions)
    ensures SameFor(cfg, Apply(w1, PurgeSome(w1.ledger, r.s3BucketName, count), Short(r.id)),
                    Apply(w2, PurgeSome(w2.ledger, r.s3BucketName, count), Short(r.id)), r.id)
  {
    hide LedgerSound, StoreSound, SameFor, RowSound, Apply, OpOwn;
    OwnSeen(cfg, w1, w2, r);
    PurgeOwn(cfg, step, w1, r, count);
    PurgeOwn(cfg, step, w2, r, count);
    SameApply(cfg, w1, w2, PurgeSome(w1.ledger, r.s3BucketName, count), r.id);
  }

  // ----- traces -----

  lemma HandlerStaysSound(cfg: Settings, h: Hid, handler: Handler, w: World, w': World)
    requires HandlerSound(cfg, h, handler, w.issued) && IssuedGrows(w, w')
    ensures HandlerSound(cfg, h, handler, w'.issued)
  {
    hide RowSound, Allowed, IssuedGrows;
    if handler.stage.Working? { RowStaysSound(cfg, handler.stage.local, w, w'); }
  }

  lemma TickSound(cfg: Settings, w: World, h: Hid, handler: Handler, o: Outcome)
    requires WorldSound(cfg, w) && HandlerSound(cfg, h, handler, w.issued)
    requires handler.stage.Working? ==> h.envId in w.store
    ensures
      var (w', handler') := Tick(cfg, w, h.envId, handler, o);
      && WorldSound(cfg, w') && IssuedGrows(w, w') && HandlerSound(cfg, h, handler', w'.issued)
      && w'.store.Keys == w.store.Keys
      && (handler'.stage.Working? ==> h.envId in w'.store)
  {
    hide RowSound, LedgerSound, Perform, Program, Allowed;
    assert IssuedGrows(w, w);
    match handler.stage {
      case Loading =>
        if h.envId in w.store {
          ProgramsAllowed(cfg, handler.step, handler.dir, w.store[h.envId]);
        }
      case Working(local, prog, pc) =>
        if pc < |prog| {
          PerformSound(cfg, handler.step, prog[pc], w, local, o);
          PerformStores(cfg, handler.step, prog[pc], w, local, o);
          var v := Perform(cfg, handler.step, prog[pc], w, local, o);
          if v.Go? { AllowedStays(handler.step, local, v.local, prog); }
        }
      case Replied(_) =>
      case Dead =>
    }
  }

  lemma AllowedStays(step: Step, r: Record, r': Record, prog: seq<Action>)
    requires r.dryRun == r'.dryRun && forall a :: a in prog ==> Allowed(step, r, a)
    ensures forall a :: a in prog ==> Allowed(step, r', a)
  {
  }

  lemma AdvanceSound(cfg: Settings, s: Sys, ev: Event)
    requires SysSound(cfg, s)
    ensures SysSound(cfg, Advance(cfg, s, ev)) && Advance(cfg, s, ev).world.store.Keys == s.world.store.Keys
  {
    hide WorldSound, HandlerSound, Tick, IssuedGrows;
    var s' := Advance(cfg, s, ev);
    match ev {
      case Arrive(h, step, dir) =>
        LoadingIsSound(cfg, h, Handler(step, dir, Loading), s.world.issued);
      case Act(h, o) =>
        if h in s.handlers {
          TickSound(cfg, s.world, h, s.handlers[h], o);
          forall k | k in s'.handlers && k != h ensures HandlerSound(cfg, k, s'.handlers[k], s'.world.issued) {
            HandlerStaysSound(cfg, k, s.handlers[k], s.world, s'.world);
          }
        }
      case Crash(h) =>
        if h in s.handlers { LoadingIsSound(cfg, h, s.handlers[h].(stage := Dead), s.world.issued); }
    }
  }

  lemma LoadingIsSound(cfg: Settings, h: Hid, handler: Handler, issued: map<Key, string>)
    requires !handler.stage.Working?
    ensures HandlerSound(cfg, h, handler, issued)
  {
  }

  /** Two systems look the same to an environment: its record, its resources, and its own handlers. */
  ghost predicate SysSame(cfg: Settings, s1: Sys, s2: Sys, id: EnvId) {
    && SameFor(cfg, s1.world, s2.world, id)
    && (forall h: Hid :: h.envId == id ==> (h in s1.handlers <==> h in s2.handlers))
    && (forall h: Hid :: h.envId == id && h in s1.handlers && h in s2.handlers ==> s1.handlers[h] == s2.handlers[h])
  }

  /** No other stored environment shares the 8-character prefix. */
  ghost predicate Distinct(w: World, id: EnvId) {
    forall e :: e in w.store && e != id ==> |e| >= 8 && e[..8] != Short(id)
  }

  predicate FreshEvent(cfg: Settings, s: Sys, ev: Event) {
    ev.Act? && ev.h in s.handlers && s.handlers[ev.h].stage.Working?
    && s.handlers[ev.h].stage.pc < |s.handlers[ev.h].stage.prog| ==>
      var stage := s.handlers[ev.h].stage;
      FreshAnswer(cfg, stage.prog[stage.pc], s.world, stage.local, ev.o)
  }

  /** Along the whole trace the cloud never hands out an identifier twice. */
  predicate FreshTrace(cfg: Settings, s: Sys, evs: seq<Event>)
    decreases |evs|
  {
    evs == [] || (FreshEvent(cfg, s, evs[0]) && FreshTrace(cfg, Advance(cfg, s, evs[0]), evs[1..]))
  }

  /** The events of one environment's handlers. */
  function Project(evs: seq<Event>, id: string): seq<Event> {
    if evs == [] then []
    else (if evs[0].h.envId == id then [evs[0]] else []) + Project(evs[1..], id)
  }

  lemma SameTrans(cfg: Settings, w0: World, w1: World, w2: World, id: EnvId)
    requires SameFor(cfg, w0, w1, id) && SameFor(cfg, w1, w2, id)
    ensures SameFor(cfg, w0, w2, id)
  {
    hide Mine;
  }

  lemma SysSameTrans(cfg: Settings, s0: Sys, s1: Sys, s2: Sys, id: EnvId)
    requires SysSame(cfg, s0, s1, id) && SysSame(cfg, s1, s2, id)
    ensures SysSame(cfg, s0, s2, id)
  {
    hide SameFor;
    SameTrans(cfg, s0.world, s1.world, s2.world, id);
  }

  lemma AdvanceElsewhere(cfg: Settings, s: Sys, ev: Event, id: EnvId)
    requires SysSound(cfg, s) && Distinct(s.world, id) && ev.h.envId != id
    ensures SysSame(cfg, Advance(cfg, s, ev), s, id)
  {
    hide WorldSound, Perform, Program, Mine, RowSound, Allowed;
    assert SameFor(cfg, s.world, s.world, id);
    if ev.Act? && ev.h in s.handlers {
      var handler := s.handlers[ev.h];
      assert HandlerSound(cfg, ev.h, handler, s.world.issued);
      if handler.stage.Working? && handler.stage.pc < |handler.stage.prog| {
        var a := handler.stage.prog[handler.stage.pc];
        assert Allowed(handler.step, handler.stage.local, a);
        assert Short(handler.stage.local.id) != Short(id);
        PerformElsewhere(cfg, handler.step, a, s.world, handler.stage.local, ev.o, id);
      }
    }
  }

  lemma TickSame(cfg: Settings, w1: World, w2: World, h: Hid, handler: Handler, o: Outcome, id: EnvId)
    requires WorldSound(cfg, w1) && WorldSound(cfg, w2) && SameFor(cfg, w1, w2, id) && h.envId == id
    requires HandlerSound(cfg, h, handler, w1.issued) && HandlerSound(cfg, h, handler, w2.issued)
    requires handler.stage.Working? && handler.stage.pc < |handler.stage.prog| ==>
               FreshAnswer(cfg, handler.stage.prog[handler.stage.pc], w1, handler.stage.local, o)
    ensures
      var (x1, h1) := Tick(cfg, w1, h.envId, handler, o);
      var (x2, h2) := Tick(cfg, w2, h.envId, handler, o);
      SameFor(cfg, x1, x2, id) && h1 == h2
  {
    hide WorldSound, Perform, Program, RowSound, Allowed, FreshAnswer, SameFor;
    if handler.stage.Loading? {
      SameRow(cfg, w1, w2, id);
    } else if handler.stage.Working? && handler.stage.pc < |handler.stage.prog| {
      PerformSame(cfg, handler.step, handler.stage.prog[handler.stage.pc], w1, w2, handler.stage.local, o);
    }
  }

  lemma AdvanceSame(cfg: Settings, s1: Sys, s2: Sys, ev: Event, id: EnvId)
    requires SysSound(cfg, s1) && SysSound(cfg, s2) && SysSame(cfg, s1, s2, id) && ev.h.envId == id
             && FreshEvent(cfg, s1, ev)
    ensures SysSame(cfg, Advance(cfg, s1, ev), Advance(cfg, s2, ev), id)
  {
    hide WorldSound, Tick, HandlerSound, FreshAnswer, SameFor;
    if ev.Act? && ev.h in s1.handlers {
      assert s1.handlers[ev.h] == s2.handlers[ev.h];
      TickSame(cfg, s1.world, s2.world, ev.h, s1.handlers[ev.h], ev.o, id);
    }
  }

  lemma SameRow(cfg: Settings, w1: World, w2: World, id: EnvId)
    requires SameFor(cfg, w1, w2, id)
    ensures id in w1.store <==> id in w2.store
    ensures id in w1.store ==> w1.store[id] == w2.store[id]
  {
  }

  lemma {:induction false} Simulation(cfg: Settings, s1: Sys, s2: Sys, evs: seq<Event>, id: EnvId)
    requires SysSound(cfg, s1) && SysSound(cfg, s2) && SysSame(cfg, s1, s2, id) && Distinct(s1.world, id)
             && FreshTrace(cfg, s1, evs)
    ensures SysSame(cfg, Run(cfg, s1, evs), Run(cfg, s2, Project(evs, id)), id)
    decreases |evs|
  {
    if evs == [] {
    } else {
      hide SysSound, SysSame, Advance, FreshEvent, Distinct;
      var ev := evs[0];
      var t1 := Advance(cfg, s1, ev);
      AdvanceSound(cfg, s1, ev);
      DistinctStays(s1.world, t1.world, id);
      if ev.h.envId == id {
        AdvanceSound(cfg, s2, ev);
        AdvanceSame(cfg, s1, s2, ev, id);
        Simulation(cfg, t1, Advance(cfg, s2, ev), evs[1..], id);
        assert Project(evs, id)[1..] == Project(evs[1..], id);
      } else {
        AdvanceElsewhere(cfg, s1, ev, id);
        SysSameTrans(cfg, t1, s1, s2, id);
        Simulation(cfg, t1, s2, evs[1..], id);
        assert Project(evs, id) == Project(evs[1..], id);
      }
    }
  }

  lemma DistinctStays(w: World, w': World, id: EnvId)
    requires Distinct(w, id) && w'.store.Keys == w.store.Keys
    ensures Distinct(w', id)
  {
    forall e | e in w'.store && e != id ensures |e| >= 8 && e[..8] != Short(id) { assert e in w'.store.Keys; }
  }

  /** Non-interference: after any interleaving, an environment's record, its resources and the progress of its own
      requests are what they would be had only its own requests run. */
  lemma NonInterference(cfg: Settings, s: Sys, evs: seq<Event>, id: EnvId)
    requires SysSound(cfg, s) && Distinct(s.world, id) && FreshTrace(cfg, s, evs)
    ensures SysSame(cfg, Run(cfg, s, evs), Run(cfg, s, Project(evs, id)), id)
  {
    hide SysSound, FreshTrace, Distinct, Run;
    Simulation(cfg, s, s, evs, id);
  }

  /** The premise is met by every system as it starts: new records, and nothing in the cloud yet. */
  lemma StartIsSound(cfg: Settings, store: map<string, Record>)
    requires forall e :: e in store ==> store[e].id == e && Fresh(store[e])
    ensures SysSound(cfg, Sys(World(store, map[], map[]), map[]))
  {
    hide EnvPath, PolicyName, DbName, BucketName, Mine;
    var w := World(store, map[], map[]);
    forall e | e in store ensures RowSound(cfg, store[e], map[]) {
      FreshRowSound(cfg, store[e]);
    }
    assert LedgerSound(cfg, w);
  }

  lemma FreshRowSound(cfg: Settings, r: Record)
    requires Fresh(r)
    ensures RowSound(cfg, r, map[])
  {
    hide EnvPath, PolicyName, DbName, BucketName, Mine;
  }

  lemma {:induction false} RunSound(cfg: Settings, s: Sys, evs: seq<Event>)
    requires SysSound(cfg, s)
    ensures SysSound(cfg, Run(cfg, s, evs))
    decreases |evs|
  {
    if evs == [] {
    } else {
      hide SysSound, Advance;
      AdvanceSound(cfg, s, evs[0]);
      RunSound(cfg, Advance(cfg, s, evs[0]), evs[1..]);
    }
  }

  /** Distinct prefixes are needed: of two environments that share one, compensating the config step of the first
      deletes the .env file of the second, whose record goes on naming it. */
  lemma SharedPrefixInterferes(cfg: Settings, w: World, a: EnvId, b: EnvId, script: seq<Outcome>)
    requires a != b && Short(a) == Short(b) && a in w.store && b in w.store && w.store[a].id == a && w.store[b].id == b
    requires w.store[a].dryRun && w.store[a].localEnvPath == EnvPath(cfg, a)
             && w.store[b].localEnvPath == EnvPath(cfg, b)
    requires |script| == 4 && forall i | 0 <= i < 4 :: script[i].Ok?
    ensures
      var (w', answer) := Serve(cfg, w, a, Config, Compensate, script);
      && answer == Acked && b in w'.store && w'.store[b] == w.store[b]
      && FileKey(w'.store[b].localEnvPath) !in w'.ledger
  {
    hide EnvPath, With, Without, PolicyName, DbName, BucketName;
    SamePath(cfg, a, b);
    var r := w.store[a];
    var prog := [RemoveEnvFile, Put];
    var w1 := w.(ledger := w.ledger - {FileKey(EnvPath(cfg, a))});
    var r1 := r.(localEnvPath := "");
    assert Perform(cfg, Config, prog[0], w, r, script[1]) == Go(w1, r1);
    assert Carry(cfg, Config, w, r, prog, 0, script) == Carry(cfg, Config, w1, r1, prog, 1, script);
    var w2 := w1.(store := w1.store[a := r1]);
    assert Carry(cfg, Config, w1, r1, prog, 1, script) == Carry(cfg, Config, w2, r1, prog, 2, script);
  }

  lemma SamePath(cfg: Settings, a: EnvId, b: EnvId)
    requires Short(a) == Short(b)
    ensures EnvPath(cfg, a) == EnvPath(cfg, b) != ""
  {
  }
}
