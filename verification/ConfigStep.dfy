/** internal/steps/config.go as it runs. */
module ConfigStep {
  import opened Records
  import opened Ledgers
  import opened Handlers
  import opened Stores
  import opened Services

  method Execute(cfg: Settings, env: Environment, store: Store, cloud: Cloud, script: seq<Outcome>,
                 now: nat) returns (ok: bool)
    requires store.Valid() && |script| >= 11
    modifies env, store, cloud
    ensures store.Valid()
    ensures Ends(ExecuteCourse(cfg, Config, old(Sight(store, cloud)), old(env.Value()), script), Sight(store, cloud),
                 ok)
  {
    hide On, Ends, Sight, ForwardProgram, CompensateProgram, CourseOf, With, Intent, Updated, Skips, EnvPath;
    Programs(cfg, env.Value());
    ghost var c := ExecuteCourse(cfg, Config, Sight(store, cloud), env.Value(), script);
    var pc := 1;
    if !env.dryRun {
      ok := Upload(cfg, c, env, store, cloud, script[2]);
      if !ok { return; }
      pc := 2;
    }
    ok := WriteFile(cfg, c, pc, env, store, cloud, script[pc + 1]);
    if !ok { return; }
    ok := Finish(c, env, store, cloud, now, script[pc + 2]);
  }

  lemma Programs(cfg: Settings, r: Record)
    ensures ForwardProgram(cfg, Config, r) == if r.dryRun then [Check, WriteEnvFile, Put]
                                              else [Check, UploadConfig, WriteEnvFile, Put]
    ensures CompensateProgram(cfg, Config, r) == if r.dryRun then [RemoveEnvFile, Put]
                                                 else [DeleteConfig, RemoveEnvFile, Put]
  {
  }

  method Upload(cfg: Settings, ghost c: Course, env: Environment, store: Store, cloud: Cloud,
                o: Outcome) returns (ok: bool)
    requires c.cfg == cfg && |c.prog| > 1 && c.prog[1] == UploadConfig && On(c, 1, Sight(store, cloud), env.Value())
             && o == c.script[2]
    modifies cloud
    ensures if ok then On(c, 2, Sight(store, cloud), env.Value()) else Ends(c, Sight(store, cloud), false)
  {
    hide On, Ends, Sight, ConfigJsonOf, Push;
    ok := Ask(c, 1, UploadConfig, env, store, cloud,
              Push(cloud.ledger, env.s3BucketName, Json(ConfigJsonOf(cfg, env.Value()))), o);
  }

  method WriteFile(cfg: Settings, ghost c: Course, ghost pc: nat, env: Environment, store: Store, cloud: Cloud,
                   o: Outcome) returns (ok: bool)
    requires c.cfg == cfg && pc < |c.prog| && c.prog[pc] == WriteEnvFile && On(c, pc, Sight(store, cloud), env.Value())
             && o == c.script[pc + 1]
    modifies env, cloud
    ensures if ok then On(c, pc + 1, Sight(store, cloud), env.Value()) else Ends(c, Sight(store, cloud), false)
  {
    hide On, Ends, Sight, EnvPath, EnvFileOf;
    var path := EnvPath(cfg, env.id);
    ok := Ask(c, pc, WriteEnvFile, env, store, cloud, Overwrite(FileKey(path), FileItem(EnvFileOf(cfg, env.Value()))),
              o);
    if !ok { return; }
    env.localEnvPath := path;
  }

  method Compensate(cfg: Settings, env: Environment, store: Store, cloud: Cloud, script: seq<Outcome>,
                    now: nat) returns (ok: bool)
    requires store.Valid() && |script| >= 11
    modifies env, store, cloud
    ensures store.Valid()
    ensures Ends(CompensateCourse(cfg, Config, old(Sight(store, cloud)), old(env.Value()), script), Sight(store, cloud),
                 ok)
  {
    hide On, Ends, Sight, ForwardProgram, CompensateProgram, CourseOf, With, Records.Without, Intent, Updated, Skips,
      EnvPath;
    Programs(cfg, env.Value());
    ghost var c := CompensateCourse(cfg, Config, Sight(store, cloud), env.Value(), script);
    var pc := 0;
    if !env.dryRun {
      ok := DeleteObject(c, env, store, cloud, script[1]);
      if !ok { return; }
      pc := 1;
    }
    ok := RemoveFile(c, pc, env, store, cloud, script[pc + 1]);
    if !ok { return; }
    ok := Finish(c, env, store, cloud, now, script[pc + 2]);
  }

  method DeleteObject(ghost c: Course, env: Environment, store: Store, cloud: Cloud, o: Outcome) returns (ok: bool)
    requires |c.prog| > 0 && c.prog[0] == DeleteConfig && On(c, 0, Sight(store, cloud), env.Value()) && o == c.script[1]
    modifies cloud
    ensures if ok then On(c, 1, Sight(store, cloud), env.Value()) else Ends(c, Sight(store, cloud), false)
  {
    hide On, Ends, Sight, Push;
    if env.s3BucketName == "" {
      SkipStep(c, 0, Sight(store, cloud), env.Value());
      return true;
    }
    ok := Ask(c, 0, DeleteConfig, env, store, cloud, Push(cloud.ledger, env.s3BucketName, DeleteMarker), o);
  }

  /** A file that is already gone is not an error. */
  method RemoveFile(ghost c: Course, ghost pc: nat, env: Environment, store: Store, cloud: Cloud,
                    o: Outcome) returns (ok: bool)
    requires pc < |c.prog| && c.prog[pc] == RemoveEnvFile && On(c, pc, Sight(store, cloud), env.Value())
             && o == c.script[pc + 1]
    modifies env, cloud
    ensures if ok then On(c, pc + 1, Sight(store, cloud), env.Value()) else Ends(c, Sight(store, cloud), false)
  {
    hide On, Ends, Sight;
    if env.localEnvPath == "" {
      SkipStep(c, pc, Sight(store, cloud), env.Value());
      return true;
    }
    ok := Ask(c, pc, RemoveEnvFile, env, store, cloud, Erase(FileKey(env.localEnvPath)), o);
    if !ok { return; }
    env.localEnvPath := "";
  }

  method IsAlreadyDone(env: Environment) returns (done: bool)
    ensures done == Marked(Config, env.Value())
  {
    return env.localEnvPath != "";
  }
}
