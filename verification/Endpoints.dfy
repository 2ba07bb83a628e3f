/** The database endpoint in the record: the rds step skips an instance that is available, so an attempt that was cut
    while polling can leave the endpoint empty for good. */
module Endpoints {
  import opened Records
  import opened Ledgers
  import opened Handlers
  import opened Cascade
  import opened Attempts
  import opened Retries

  /** The describe request after the wait named an endpoint. */
  predicate Told(script: seq<Outcome>) {
    |script| > 6 && script[6].Ok? && script[6].value != ""
  }

  /** An acknowledged rds Execute, with its skip path, leaves the endpoint empty if and only if it was empty and either
      the recorded instance was found available, or the describe request named none. */
  lemma EndpointEmptyIff(cfg: Settings, w: World, id: EnvId, script: seq<Outcome>)
    requires Real(w, id) && Serve(cfg, w, id, Rds, Forward, script).1 == Acked
    ensures
      var x := Serve(cfg, w, id, Rds, Forward, script).0;
      && id in x.store
      && (x.store[id].rdsEndpoint == "" <==>
          w.store[id].rdsEndpoint == "" && (AlreadyDone(Rds, w.store[id], w.ledger) || !Told(script)))
  {
    hide Carry, Perform, DbName, AlreadyDone;
    var r := w.store[id];
    var prog := RDS_PROGRAM;
    assert Serve(cfg, w, id, Rds, Forward, script) == Carry(cfg, Rds, w, r, prog, 0, script);
    CarryOn(cfg, w, r, prog, 0, script);
    CarryIs(cfg, Rds, w, r, prog, 0, script);
    CheckIs(cfg, w, r, script[1]);
    if !AlreadyDone(Rds, r, w.ledger) {
      CarryStep(cfg, Rds, w, r, prog, 1, script);
      var v1 := Perform(cfg, Rds, NameDb, w, r, script[2]);
      DbNamed(cfg, w, r, script[2]);
      CarryStep(cfg, Rds, v1.world, v1.local, prog, 2, script);
      var v2 := Perform(cfg, Rds, CreateDb, v1.world, v1.local, script[3]);
      DbMade(cfg, v1.world, v1.local, script[3]);
      CarryStep(cfg, Rds, v2.world, v2.local, prog, 3, script);
      var v3 := Perform(cfg, Rds, Put, v2.world, v2.local, script[4]);
      Saved(cfg, Rds, v2.world, v2.local, script[4]);
      PolledEndpoint(cfg, v3.world, v3.local, script);
    }
  }

  lemma CarryOn(cfg: Settings, w: World, r: Record, prog: seq<Action>, pc: nat, script: seq<Outcome>)
    requires pc < |prog| && Carry(cfg, Rds, w, r, prog, pc, script).1 == Acked
    ensures pc + 1 < |script|
  {
    hide Perform;
  }

  lemma CheckIs(cfg: Settings, w: World, r: Record, o: Outcome)
    ensures
      match Perform(cfg, Rds, Check, w, r, o)
      case Stop(w', answer) => w' == w && (answer == Acked ==> AlreadyDone(Rds, r, w.ledger))
      case Go(w', r') => w' == w && r' == r && !AlreadyDone(Rds, r, w.ledger)
  {
    hide AlreadyDone, With, Without;
  }

  lemma PolledEndpoint(cfg: Settings, w: World, r: Record, script: seq<Outcome>)
    requires Carry(cfg, Rds, w, r, RDS_PROGRAM, 4, script).1 == Acked
    ensures
      var x := Carry(cfg, Rds, w, r, RDS_PROGRAM, 4, script).0;
      r.id in x.store && x.store[r.id].rdsEndpoint == if Told(script) then script[6].value else r.rdsEndpoint
  {
    hide Carry, Perform;
    var prog := RDS_PROGRAM;
    CarryStep(cfg, Rds, w, r, prog, 4, script);
    var v4 := Perform(cfg, Rds, WaitDbAvailable, w, r, script[5]);
    WaitedFor(cfg, w, r, script[5]);
    CarryStep(cfg, Rds, v4.world, v4.local, prog, 5, script);
    var v5 := Perform(cfg, Rds, DescribeDb, v4.world, v4.local, script[6]);
    DescribeIs(cfg, v4.world, v4.local, script[6]);
    CarryStep(cfg, Rds, v5.world, v5.local, prog, 6, script);
    Saved(cfg, Rds, v5.world, v5.local, script[7]);
    AckedEnd(cfg, Rds, v5.world.(store := v5.world.store[r.id := v5.local]), v5.local, prog, script);
  }

  lemma DescribeIs(cfg: Settings, w: World, r: Record, o: Outcome)
    requires DbKey(r.rdsInstanceId) in w.ledger
    ensures Perform(cfg, Rds, DescribeDb, w, r, o)
         == if o.Ok? then Go(w, if o.value != "" then r.(rdsEndpoint := o.value) else r) else Stop(w, Refused)
  {
    hide With, Without, DbName;
  }

  // ----- an attempt that was cut, and its retry -----

  /** The attempt went on to store the endpoint. */
  predicate Published(script: seq<Outcome>) {
    Told(script) && script[4].Ok? && script[5].Ok? && |script| > 7 && Applied(script[7])
  }

  lemma FirstEndpoint(cfg: Settings, w: World, id: EnvId, script: seq<Outcome>)
    requires Real(w, id) && w.store[id].rdsInstanceId == "" && w.store[id].rdsEndpoint == ""
             && DbKey(DbName(id)) !in w.ledger
    requires DbCreatedBy(w, id, script) && DbSaved(script)
    ensures
      var x := Serve(cfg, w, id, Rds, Forward, script).0;
      id in x.store && x.store[id].rdsEndpoint == if Published(script) then script[6].value else ""
  {
    hide Carry, Perform, DbName;
    var r := w.store[id];
    assert Serve(cfg, w, id, Rds, Forward, script) == Carry(cfg, Rds, w, r, RDS_PROGRAM, 0, script);
    CarryIs(cfg, Rds, w, r, RDS_PROGRAM, 0, script);
    RdsNotDone(cfg, w, r, script[1]);
    CarryIs(cfg, Rds, w, r, RDS_PROGRAM, 1, script);
    NameDbIs(cfg, w, r, script[2]);
    var r1 := r.(rdsPassword := script[2].value, rdsInstanceId := DbName(r.id));
    CarryIs(cfg, Rds, w, r1, RDS_PROGRAM, 2, script);
    CreateDbIs(cfg, w, r1, script[3]);
    var w2 := w.(ledger := w.ledger[DbKey(DbName(id)) := DbItem(r.securityGroupId, r1.rdsPassword, Creating)]);
    CarryIs(cfg, Rds, w2, r1, RDS_PROGRAM, 3, script);
    PutIs(cfg, Rds, w2, r1, script[4]);
    if script[4].Ok? { PollingEndpoint(cfg, w2.(store := w2.store[id := r1]), r1, script); }
  }

  lemma PollingEndpoint(cfg: Settings, w: World, r: Record, script: seq<Outcome>)
    requires r.id in w.store && w.store[r.id] == r && r.rdsEndpoint == "" && |script| > 4 && script[4].Ok?
    requires DbKey(r.rdsInstanceId) in w.ledger && w.ledger[DbKey(r.rdsInstanceId)].DbItem?
    ensures
      var x := Carry(cfg, Rds, w, r, RDS_PROGRAM, 4, script).0;
      r.id in x.store && x.store[r.id].rdsEndpoint == if Published(script) then script[6].value else ""
  {
    hide Carry, Perform;
    if |script| == 5 {
      CarryOver(cfg, Rds, w, r, RDS_PROGRAM, 4, script);
    } else {
      CarryIs(cfg, Rds, w, r, RDS_PROGRAM, 4, script);
      WaitIs(cfg, w, r, script[5]);
      var v := Perform(cfg, Rds, WaitDbAvailable, w, r, script[5]);
      if v.Go? { DescribingEndpoint(cfg, v.world, r, script); }
    }
  }

  lemma WaitIs(cfg: Settings, w: World, r: Record, o: Outcome)
    requires DbKey(r.rdsInstanceId) in w.ledger && w.ledger[DbKey(r.rdsInstanceId)].DbItem?
    ensures
      var v := Perform(cfg, Rds, WaitDbAvailable, w, r, o);
      v.world.store == w.store && (v.Go? <==> o.Ok?)
      && (v.Go? ==> v.local == r && DbKey(r.rdsInstanceId) in v.world.ledger)
  {
    hide With, Without, DbName;
  }

  lemma DescribingEndpoint(cfg: Settings, w: World, r: Record, script: seq<Outcome>)
    requires r.id in w.store && w.store[r.id] == r && r.rdsEndpoint == "" && |script| > 5 && script[4].Ok?
             && script[5].Ok?
    requires DbKey(r.rdsInstanceId) in w.ledger
    ensures
      var x := Carry(cfg, Rds, w, r, RDS_PROGRAM, 5, script).0;
      r.id in x.store && x.store[r.id].rdsEndpoint == if Published(script) then script[6].value else ""
  {
    hide Carry, Perform;
    if |script| == 6 {
      CarryOver(cfg, Rds, w, r, RDS_PROGRAM, 5, script);
    } else {
      CarryIs(cfg, Rds, w, r, RDS_PROGRAM, 5, script);
      DescribeIs(cfg, w, r, script[6]);
      var v := Perform(cfg, Rds, DescribeDb, w, r, script[6]);
      if v.Go? {
        if |script| == 7 {
          CarryOver(cfg, Rds, w, v.local, RDS_PROGRAM, 6, script);
        } else {
          CarryIs(cfg, Rds, w, v.local, RDS_PROGRAM, 6, script);
          PutIs(cfg, Rds, w, v.local, script[7]);
          CarryEnds(cfg, w, v.local, script);
        }
      }
    }
  }

  lemma CarryEnds(cfg: Settings, w: World, r: Record, script: seq<Outcome>)
    ensures
      var w' := w.(store := w.store[r.id := r]);
      Carry(cfg, Rds, w', r, RDS_PROGRAM, |RDS_PROGRAM|, script).0 == w'
  {
  }

  /** A first attempt that created the instance, which then became available in whatever way, and a calm retry that is
      acknowledged: the endpoint the config step goes on to render is still empty unless the first attempt itself went
      on to store it. The retry finds the instance available and skips. */
  lemma RetryLeavesEndpointEmptyIff(cfg: Settings, w: World, id: EnvId, first: seq<Outcome>, later: World,
                                    keys: set<Key>, retry: seq<Outcome>)
    requires Real(w, id) && w.store[id].rdsInstanceId == "" && w.store[id].rdsEndpoint == ""
             && DbKey(DbName(id)) !in w.ledger
    requires DbCreatedBy(w, id, first) && Calm(retry)
    requires Matures(Serve(cfg, w, id, Rds, Forward, first).0, later, keys)
    ensures
      var (w2, answer) := Serve(cfg, later, id, Rds, Forward, retry);
      answer == Acked ==> id in w2.store && (w2.store[id].rdsEndpoint == "" <==> !Published(first))
  {
    hide Serve, DbName, DbCreatedBy, DbSaved;
    assert GroupKey(w.store[id].securityGroupId) in w.ledger by { CreatedNeedsGroup(w, id, first); }
    RdsRetryIff(cfg, w, id, first, later, keys, retry);
    var w1 := Serve(cfg, w, id, Rds, Forward, first).0;
    RdsSavedBeforePolling(cfg, w, id, first);
    if Serve(cfg, later, id, Rds, Forward, retry).1 == Acked {
      FirstEndpoint(cfg, w, id, first);
      KeepsMode(Rds, w.store[id], w1.store[id]);
      AvailableSkips(cfg, later, id, retry);
    }
  }

  lemma CreatedNeedsGroup(w: World, id: EnvId, script: seq<Outcome>)
    requires id in w.store && DbCreatedBy(w, id, script)
    ensures GroupKey(w.store[id].securityGroupId) in w.ledger
  {
  }
}
