/** internal/steps/health.go and internal/steps/registry.go as they run. */
module LastSteps {
  import opened Records
  import opened Ledgers
  import opened Handlers
  import opened Stores
  import opened Services

  /** Fails when told to; otherwise probes the database, except in dry-run. Nothing is written. */
  method CheckHealth(cfg: Settings, env: Environment, store: Store, cloud: Cloud,
                     script: seq<Outcome>) returns (ok: bool)
    requires |script| >= 11
    ensures Ends(ExecuteCourse(cfg, Health, Sight(store, cloud), env.Value(), script), Sight(store, cloud), ok)
    ensures ok <==> !env.failAtHealth && (env.dryRun || script[2].Ok?)
  {
    hide On, Ends, Sight;
    ghost var c := ExecuteCourse(cfg, Health, Sight(store, cloud), env.Value(), script);
    ProbeStep(c, Sight(store, cloud), env.Value());
    if env.failAtHealth { return false; }
    if env.dryRun { return true; }
    return script[2].Ok?;
  }

  lemma ProbeStep(c: Course, w: World, r: Record)
    requires c.prog == [Check, Probe] && On(c, 1, w, r)
    ensures Ends(c, w, !r.failAtHealth && (r.dryRun || c.script[2].Ok?))
  {
    OneAction(c, 1, w, r);
    if !r.failAtHealth && (r.dryRun || c.script[2].Ok?) { EndStep(c, w, r); }
  }

  /** Health validation leaves nothing to undo. */
  method UndoHealth(cfg: Settings, env: Environment, store: Store, cloud: Cloud,
                    script: seq<Outcome>) returns (ok: bool)
    requires |script| >= 11
    ensures Ends(CompensateCourse(cfg, Health, Sight(store, cloud), env.Value(), script), Sight(store, cloud), ok)
  {
    EndStep(CompensateCourse(cfg, Health, Sight(store, cloud), env.Value(), script), Sight(store, cloud), env.Value());
    return true;
  }

  method Register(cfg: Settings, env: Environment, store: Store, cloud: Cloud, script: seq<Outcome>,
                  now: nat) returns (ok: bool)
    requires store.Valid() && |script| >= 11
    modifies env, store
    ensures store.Valid()
    ensures Ends(ExecuteCourse(cfg, Registry, old(Sight(store, cloud)), old(env.Value()), script), Sight(store, cloud),
                 ok)
  {
    hide On, Ends, Sight;
    ghost var c := ExecuteCourse(cfg, Registry, Sight(store, cloud), env.Value(), script);
    env.status := READY;
    LocalStep(c, 1, Sight(store, cloud), old(env.Value()));
    ok := Finish(c, env, store, cloud, now, script[3]);
  }

  method Unregister(cfg: Settings, env: Environment, store: Store, cloud: Cloud, script: seq<Outcome>,
                    now: nat) returns (ok: bool)
    requires store.Valid() && |script| >= 11
    modifies env, store
    ensures store.Valid()
    ensures Ends(CompensateCourse(cfg, Registry, old(Sight(store, cloud)), old(env.Value()), script),
                 Sight(store, cloud), ok)
  {
    hide On, Ends, Sight;
    ghost var c := CompensateCourse(cfg, Registry, Sight(store, cloud), env.Value(), script);
    env.status := DESTROYED;
    LocalStep(c, 0, Sight(store, cloud), old(env.Value()));
    ok := Finish(c, env, store, cloud, now, script[2]);
  }
}
