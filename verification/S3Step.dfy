/** internal/steps/s3.go as it runs. */
module S3Step {
  import opened Records
  import opened Ledgers
  import opened Handlers
  import opened Stores
  import opened Services
  import Purge

  method Execute(cfg: Settings, env: Environment, store: Store, cloud: Cloud, script: seq<Outcome>,
                 now: nat) returns (ok: bool)
    requires store.Valid() && |script| >= 11
    modifies env, store, cloud
    ensures store.Valid()
    ensures Ends(ExecuteCourse(cfg, S3, old(Sight(store, cloud)), old(env.Value()), script), Sight(store, cloud), ok)
  {
    hide On, Ends, Sight, With, Intent, Updated, Skips;
    ghost var c := ExecuteCourse(cfg, S3, Sight(store, cloud), env.Value(), script);
    if env.dryRun {
      env.s3BucketName := "env-forge-dryrun-" + Short(env.id);
      DryName(cfg, old(env.Value()));
      LocalStep(c, 1, Sight(store, cloud), old(env.Value()));
      ok := Finish(c, env, store, cloud, now, script[3]);
      return;
    }
    ok := CreateVersioned(c, env, store, cloud, script[2], script[3], script[4]);
    if !ok { return; }
    ok := Finish(c, env, store, cloud, now, script[5]);
  }

  lemma DryName(cfg: Settings, r: Record)
    ensures With(cfg, S3, r) == r.(s3BucketName := "env-forge-dryrun-" + Short(r.id))
  {
  }

  lemma NoName(r: Record)
    ensures Records.Without(S3, r) == r.(s3BucketName := "")
  {
  }

  /** The record names the bucket, in memory, before the bucket exists. */
  method CreateVersioned(ghost c: Course, env: Environment, store: Store, cloud: Cloud, create: Outcome,
                         versioning: Outcome, placeholder: Outcome) returns (ok: bool)
    requires c.prog == S3_PROGRAM && On(c, 1, Sight(store, cloud), env.Value())
    requires c.script[2] == create && c.script[3] == versioning && c.script[4] == placeholder
    modifies env, cloud
    ensures if ok then On(c, 4, Sight(store, cloud), env.Value()) else Ends(c, Sight(store, cloud), false)
  {
    hide On, Ends, Sight, BucketName;
    var bucket := BucketName(env.id);
    env.s3BucketName := bucket;
    ok := AskAs(c, 1, CreateBucket, old(env.Value()), Short(env.id), store, cloud,
                Create(BucketKey(bucket), BucketItem(false, [])), create);
    if !ok { return; }
    ok := EnableVersions(c, env, store, cloud, versioning);
    if !ok { return; }
    ok := Ask(c, 3, PutPlaceholder, env, store, cloud, Push(cloud.ledger, env.s3BucketName, Placeholder), placeholder);
  }

  method EnableVersions(ghost c: Course, env: Environment, store: Store, cloud: Cloud,
                        versioning: Outcome) returns (ok: bool)
    requires c.prog == S3_PROGRAM && On(c, 2, Sight(store, cloud), env.Value()) && c.script[3] == versioning
    modifies cloud
    ensures if ok then On(c, 3, Sight(store, cloud), env.Value()) else Ends(c, Sight(store, cloud), false)
  {
    hide On, Ends, Sight;
    var k := BucketKey(env.s3BucketName);
    var op := if k in cloud.ledger && cloud.ledger[k].BucketItem? then Change(k, cloud.ledger[k].(versioned := true))
    else Reject;
    ok := Ask(c, 2, EnableVersioning, env, store, cloud, op, versioning);
  }

  /** The outcome of the purge action that a page plan amounts to. */
  function PurgeOutcome(l: Ledger, bucket: string, plan: seq<Purge.PagePlan>): Outcome {
    var k := BucketKey(bucket);
    if k !in l || !l[k].BucketItem? then Fail
    else
      var (count, ok) := Purge.Outcomes(|l[k].versions|, plan);
      if ok then Ok("") else Partial(count)
  }

  method Compensate(cfg: Settings, env: Environment, store: Store, cloud: Cloud, plan: seq<Purge.PagePlan>,
                    script: seq<Outcome>, now: nat) returns (ok: bool)
    requires store.Valid() && |script| >= 11
    requires plan != [] && (!env.dryRun && env.s3BucketName != "" ==>
                              script[1] == PurgeOutcome(cloud.ledger, env.s3BucketName, plan))
    modifies env, store, cloud
    ensures store.Valid()
    ensures Ends(CompensateCourse(cfg, S3, old(Sight(store, cloud)), old(env.Value()), script), Sight(store, cloud), ok)
  {
    hide On, Ends, Sight, Records.Without, Updated, Skips, PurgeOutcome, Purge.Outcomes;
    ghost var c := CompensateCourse(cfg, S3, Sight(store, cloud), env.Value(), script);
    NoName(env.Value());
    if env.dryRun {
      env.s3BucketName := "";
      LocalStep(c, 0, Sight(store, cloud), old(env.Value()));
      ok := Finish(c, env, store, cloud, now, script[2]);
      return;
    }
    if env.s3BucketName == "" {
      EndStep(c, Sight(store, cloud), env.Value());
      return true;
    }
    ok := EmptyBucket(c, env, store, cloud, plan);
    if !ok { return; }
    ok := RemoveBucket(c, env, store, cloud, script[2]);
    if !ok { return; }
    env.s3BucketName := "";
    LocalStep(c, 2, Sight(store, cloud), old(env.Value()));
    ok := Finish(c, env, store, cloud, now, script[4]);
  }

  method RemoveBucket(ghost c: Course, env: Environment, store: Store, cloud: Cloud, delete: Outcome) returns (ok: bool)
    requires c.prog == S3_UNDO && On(c, 1, Sight(store, cloud), env.Value()) && c.script[2] == delete
    modifies cloud
    ensures if ok then On(c, 2, Sight(store, cloud), env.Value()) else Ends(c, Sight(store, cloud), false)
  {
    hide On, Ends, Sight;
    ok := Ask(c, 1, DeleteBucket, env, store, cloud, Remove(BucketKey(env.s3BucketName)), delete);
  }

  /** deleteAllVersions on the bucket that the record names. */
  method EmptyBucket(ghost c: Course, env: Environment, store: Store, cloud: Cloud,
                     plan: seq<Purge.PagePlan>) returns (ok: bool)
    requires c.step == S3 && c.prog == S3_UNDO && On(c, 0, Sight(store, cloud), env.Value()) && plan != []
    requires c.script[1] == PurgeOutcome(cloud.ledger, env.s3BucketName, plan)
    modifies cloud
    ensures if ok then On(c, 1, Sight(store, cloud), env.Value()) else Ends(c, Sight(store, cloud), false)
  {
    hide On, Ends, Purge.Outcomes;
    var k := BucketKey(env.s3BucketName);
    if k !in cloud.ledger || !cloud.ledger[k].BucketItem? {
      NoBucketStep(c, Sight(store, cloud), env.Value());
      return false;
    }
    ghost var w := Sight(store, cloud);
    var bucket := new Purge.Bucket(cloud.ledger[k].versions);
    ghost var entries := bucket.entries;
    ok := Purge.DeleteAllVersions(bucket, plan);
    var left := VersionsOf(bucket.entries);
    cloud.ledger := cloud.ledger[k := cloud.ledger[k].(versions := left)];
    ghost var count := Purge.Outcomes(|entries|, plan).0;
    assert left == w.ledger[k].versions[count..];
    PurgeStep(c, w, env.Value(), plan);
  }

  method VersionsOf(entries: seq<Purge.Entry>) returns (versions: seq<Version>)
    ensures |versions| == |entries|
    ensures forall i | 0 <= i < |entries| :: versions[i] == entries[i].version
  {
    versions := seq(|entries|, i requires 0 <= i < |entries| => entries[i].version);
  }

  lemma NoBucketStep(c: Course, w: World, r: Record)
    requires c.prog == S3_UNDO && On(c, 0, w, r) && c.script[1] == Fail
    ensures Ends(c, w, false)
  {
    OneAction(c, 0, w, r);
  }

  lemma PurgeStep(c: Course, w: World, r: Record, plan: seq<Purge.PagePlan>)
    requires c.prog == S3_UNDO && On(c, 0, w, r) && plan != [] && c.step == S3
    requires BucketKey(r.s3BucketName) in w.ledger && w.ledger[BucketKey(r.s3BucketName)].BucketItem?
    requires c.script[1] == PurgeOutcome(w.ledger, r.s3BucketName, plan)
    ensures
      var k := BucketKey(r.s3BucketName);
      var (count, ok) := Purge.Outcomes(|w.ledger[k].versions|, plan);
      && count <= |w.ledger[k].versions|
      && var w' := w.(ledger := w.ledger[k := w.ledger[k].(versions := w.ledger[k].versions[count..])]);
      if ok then On(c, 1, w', r) else Ends(c, w', false)
  {
    hide Purge.Outcomes, Attempt;
    Purge.PurgeIsOneAction(c.cfg, w, r, plan);
    OneAction(c, 0, w, r);
    PurgeOnlyPurges(c.cfg, w, r, c.script[1]);
  }

  lemma PurgeOnlyPurges(cfg: Settings, w: World, r: Record, o: Outcome)
    ensures
      var v := Perform(cfg, S3, PurgeVersions, w, r, o);
      if v.Go? then v.local == r else v.answer == Refused
  {
  }

  method IsAlreadyDone(env: Environment) returns (done: bool)
    ensures done == Marked(S3, env.Value())
  {
    return env.s3BucketName != "";
  }
}
