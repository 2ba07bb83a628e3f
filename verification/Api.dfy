/** POST /envs/create and the provisioning goroutine as they run (internal/apiserver/server.go, cmd/forge-api/main.go),
    each statement tied to a move of a task in the whole-service model. */
module Api {
  import opened Records
  import opened Handlers
  import opened Stores
  import opened Forge

  /** How StartEnvSaga comes back: an error, or an execution that did or did not end FAILED. */
  datatype SagaEnd = StartError | Execution(failed: bool)

  predicate Unsuccessful(end: SagaEnd) {
    end.StartError? || end.failed
  }

  /** A task after Provision, given what the conductor and the store did, and whether the saga ID was written. */
  ghost function AfterProvision(t: Task, id: EnvId, create: Outcome, persist: Outcome, end: SagaEnd): Task {
    var t1 := Proceed(t, CreateSaga(id, create)).0;
    var t2 := Proceed(t1, PersistSaga(id, persist)).0;
    var t3 := Proceed(t2, StartSaga(id)).0;
    Proceed(t3, SagaEnds(id, Unsuccessful(end))).0
  }

  ghost predicate PersistWrites(t: Task, id: EnvId, create: Outcome, persist: Outcome) {
    Proceed(Proceed(t, CreateSaga(id, create)).0, PersistSaga(id, persist)).1
  }

  /** The same, spelled out. */
  lemma ProvisionIs(r: Record, id: EnvId, create: Outcome, persist: Outcome, end: SagaEnd)
    ensures
      var t := Task(r, Registered, false);
      && PersistWrites(t, id, create, persist) == (create.Ok? && Applied(persist))
      && AfterProvision(t, id, create, persist, end)
         == if !create.Ok? then Task(r, Failing, false)
            else if !persist.Ok? then Task(r.(sagaId := create.value), Failing, false)
            else Task(r.(sagaId := create.value), if Unsuccessful(end) then Failing else Over, true)
  {
  }

  lemma FirstPutIs(r: Record, id: EnvId, o: Outcome)
    ensures Proceed(Task(r, Accepted, false), FirstPut(id, o))
         == (Task(r, if o.Ok? then Stored else Rejected, false), Applied(o))
  {
  }

  lemma FailureIs(t: Task, id: EnvId, failure: Outcome)
    ensures Proceed(t, FailurePut(id, failure))
         == if t.phase == Failing then (Task(t.env.(status := FAILED), Over, t.began), Applied(failure)) else (t, false)
  {
  }

  /** The request's own values, and nothing else. */
  lemma NewRecordIs(id: EnvId, owner: string, dryRun: bool, failAtHealth: bool, createdAt: nat)
    ensures
      var r := NewRecord(id, owner, dryRun, failAtHealth, createdAt);
      && r.id == id && r.owner == owner && r.status == "provisioning" && r.sagaId == "" && r.dryRun == dryRun
      && r.failAtHealth == failAtHealth && r.createdAt == createdAt
      && r.vpcId == r.publicSubnetId == r.privateSubnetId == r.securityGroupId == ""
      && r.rdsInstanceId == r.rdsEndpoint == r.rdsPassword == ""
      && r.ec2InstanceId == r.ec2PublicIp == r.s3BucketName == ""
      && r.spireEntryIds == [] && r.svidExchangePolicyName == r.localEnvPath == ""
  {
  }

  class ApiServer {
    const store: Store
    var wg: int

    constructor (store: Store)
      ensures this.store == store && wg == 0
    {
      this.store := store;
      wg := 0;
    }

    /** Validates, stores the new record, registers the goroutine. The caller of this method starts it with env. */
    method HandleCreateEnv(id: EnvId, owner: string, dryRun: bool, failAtHealth: bool, now: nat,
                           o: Outcome) returns (code: int, env: Environment?)
      requires store.Valid() && id !in store.rows
      modifies store, this`wg
      ensures store.Valid()
      ensures code == if owner == "" then 400 else if !o.Ok? then 500 else 202
      ensures env != null <==> code == 202
      ensures env != null ==>
                && fresh(env) && env.id == id && env.owner == owner && env.status == "provisioning" && env.sagaId == ""
                && env.dryRun == dryRun && env.failAtHealth == failAtHealth && env.createdAt == now
                && env.vpcId == env.publicSubnetId == env.privateSubnetId == env.securityGroupId == ""
                && env.rdsInstanceId == env.rdsEndpoint == env.rdsPassword == ""
                && env.ec2InstanceId == env.ec2PublicIp == env.s3BucketName == ""
                && env.spireEntryIds == [] && env.svidExchangePolicyName == env.localEnvPath == ""
      ensures env != null ==> env.Value() == NewRecord(id, owner, dryRun, failAtHealth, now)
      ensures env != null ==> id in store.rows && store.rows[id].record == env.Value()
      ensures wg == old(wg) + if code == 202 then 1 else 0
      ensures owner == "" ==> store.rows == old(store.rows)
      ensures owner != "" ==>
                var (t, wrote) := Proceed(Task(NewRecord(id, owner, dryRun, failAtHealth, now), Accepted, false),
                                          FirstPut(id, o));
                && (code == 202 <==> t.phase == Stored)
                && RecordsOf(store.rows) == Written(RecordsOf(old(store.rows)), t.env, wrote)
    {
      hide NewRecord, Proceed, RecordsOf;
      NewRecordIs(id, owner, dryRun, failAtHealth, now);
      FirstPutIs(NewRecord(id, owner, dryRun, failAtHealth, now), id, o);
      if owner == "" { return 400, null; }
      var record := new Environment(NewRecord(id, owner, dryRun, failAtHealth, now), 0);
      var ok := store.Put(record, now, o);
      if !ok { return 500, null; }
      wg := wg + 1;
      return 202, record;
    }

    /** Creates the saga, stores its ID, starts it and waits for its end. Meanwhile the workers make of the store what
        they make of it. */
    method Provision(env: Environment, create: Outcome, persist: Outcome, end: SagaEnd, workers: Rows -> Rows,
                     now: nat) returns (ok: bool)
      requires store.Valid() && forall rows :: Keyed(rows) ==> Keyed(workers(rows))
      modifies env, store
      ensures store.Valid() && env.id == old(env.id)
      ensures ok <==> create.Ok? && persist.Ok? && end == Execution(false)
      ensures
        var t := AfterProvision(Task(old(env.Value()), Registered, false), env.id, create, persist, end);
        && env.Value() == t.env && t.phase == (if ok then Over else Failing)
        && (t.began <==> create.Ok? && persist.Ok?)
      ensures !create.Ok? ==> store.rows == old(store.rows)
      ensures create.Ok? ==>
                var saved := old(store.rows)[env.id := Row(old(env.Value()).(sagaId := create.value), now)];
                store.rows == if persist.Ok? then workers(saved) else if persist.Lost? then saved else old(store.rows)
    {
      hide AfterProvision, PersistWrites, Proceed;
      ProvisionIs(env.Value(), env.id, create, persist, end);
      if !create.Ok? { return false; }
      env.sagaId := create.value;
      var stored := store.Put(env, now, persist);
      if !stored { return false; }
      store.rows := workers(store.rows);
      if end.StartError? { return false; }
      // A FAILED saga has been compensated; the registry step never ran, so it is reported as an error.
      if end.failed { return false; }
      return true;
    }

    method MarkFailed(env: Environment, failure: Outcome, now: nat)
      requires store.Valid()
      modifies env, store
      ensures store.Valid() && env.Value() == old(env.Value()).(status := FAILED)
      ensures RecordsOf(store.rows) == Written(RecordsOf(old(store.rows)), env.Value(), Applied(failure))
    {
      env.status := FAILED;
      var _ := store.Put(env, now, failure);
    }

    /** The store when the goroutine's provisioning is over. */
    ghost function Provisioned(r: Record, create: Outcome, persist: Outcome, before: Rows, workers: Rows -> Rows,
                               now: nat): Rows {
      if !create.Ok? then before
      else
        var saved := before[r.id := Row(r.(sagaId := create.value), now)];
        if persist.Ok? then workers(saved) else if persist.Lost? then saved else before
    }

    /** The goroutine: its own copy, as old as the saga ID, is written back marked failed unless the saga completed. */
    method RunGoroutine(env: Environment, create: Outcome, persist: Outcome, end: SagaEnd, workers: Rows -> Rows,
                        failure: Outcome, now: nat)
      requires store.Valid() && forall rows :: Keyed(rows) ==> Keyed(workers(rows))
      modifies env, store, this`wg
      ensures store.Valid() && wg == old(wg) - 1 && env.id == old(env.id)
      ensures
        var before := Provisioned(old(env.Value()), create, persist, old(store.rows), workers, now);
        var copy := if create.Ok? then old(env.Value()).(sagaId := create.value) else old(env.Value());
        var completed := create.Ok? && persist.Ok? && end == Execution(false);
        RecordsOf(store.rows) == if !completed && (failure.Ok? || failure.Lost?)
        then RecordsOf(before)[env.id := copy.(status := "failed")] else RecordsOf(before)
      ensures
        var t := AfterProvision(Task(old(env.Value()), Registered, false), env.id, create, persist, end);
        var (t', wrote) := Proceed(t, FailurePut(env.id, failure));
        && env.Value() == t'.env && t'.phase == Over
        && (wrote <==> !(create.Ok? && persist.Ok? && end == Execution(false)) && (failure.Ok? || failure.Lost?))
    {
      hide AfterProvision, PersistWrites, Proceed;
      ProvisionIs(env.Value(), env.id, create, persist, end);
      var ok := Provision(env, create, persist, end, workers, now);
      FailureIs(AfterProvision(Task(old(env.Value()), Registered, false), env.id, create, persist, end), env.id,
                failure);
      if !ok { MarkFailed(env, failure, now); }
      wg := wg - 1;
    }
  }
}
