/** The config step in either mode: the .env file and config.json agree with the record they are rendered from. */
module ConfigPhases {
  import opened Records
  import opened Ledgers
  import opened Handlers
  import opened Sessions
  import opened DryRun

  predicate FileMatches(cfg: Settings, l: Ledger, r: Record) {
    var k := FileKey(EnvPath(cfg, r.id));
    k in l && l[k] == FileItem(EnvFileOf(cfg, r))
  }

  predicate ObjectMatches(cfg: Settings, l: Ledger, r: Record) {
    var k := BucketKey(r.s3BucketName);
    k in l && l[k].BucketItem? && |l[k].versions| > 0 && l[k].versions[0] == Json(ConfigJsonOf(cfg, r))
  }

  /** The file at localEnvPath and, in real mode, the newest config.json are the rendering of this record. */
  predicate Matches(cfg: Settings, w: World, r: Record) {
    && r.localEnvPath == EnvPath(cfg, r.id)
    && FileMatches(cfg, w.ledger, r)
    && (!r.dryRun ==> ObjectMatches(cfg, w.ledger, r))
  }

  lemma RendersAlike(cfg: Settings, r: Record, s: Record, l: Ledger)
    requires AgreeOutside(Config, r, s) || AgreeOutside(Registry, r, s)
    ensures FileMatches(cfg, l, r) == FileMatches(cfg, l, s) && ObjectMatches(cfg, l, r) == ObjectMatches(cfg, l, s)
    ensures r.dryRun == s.dryRun && r.id == s.id
    ensures AgreeOutside(Registry, r, s) ==> r.localEnvPath == s.localEnvPath
  {
    assert EnvFileOf(cfg, r) == EnvFileOf(cfg, s);
  }

  function ConfigProgram(dry: bool): seq<Action> {
    if dry then [Check, WriteEnvFile, Put] else [Check, UploadConfig, WriteEnvFile, Put]
  }

  /** A config Execute at work: what it has rendered so far is in place. */
  predicate Rendering(cfg: Settings, w: World, r: Record, stage: Stage)
    requires r.id in w.store
  {
    match stage
    case Working(local, prog, pc) =>
      && AgreeOutside(Config, r, local) && prog == ConfigProgram(r.dryRun) && pc <= |prog|
      && (pc == 0 && Marked(Config, local) ==> Marked(Config, w.store[r.id]))
      && (!r.dryRun && pc >= 2 ==> ObjectMatches(cfg, w.ledger, r))
      && (pc >= |prog| - 1 ==> FileMatches(cfg, w.ledger, r) && local.localEnvPath == EnvPath(cfg, r.id))
      && (pc == |prog| ==> Marked(Config, w.store[r.id]))
    case Replied(answer) => answer == Acked ==> Marked(Config, w.store[r.id])
    case _ => true
  }

  /** Every config handler renders the same r, and a marked record is matched. */
  ghost predicate ConfigPhase(cfg: Settings, r: Record, s: Sys) {
    && r.id in s.world.store
    && AgreeOutside(Config, r, s.world.store[r.id])
    && (Marked(Config, s.world.store[r.id]) ==> Matches(cfg, s.world, s.world.store[r.id]))
    && forall h :: h in s.handlers ==>
                     h.envId == r.id && s.handlers[h].step == Config && s.handlers[h].dir == Forward
                     && Rendering(cfg, s.world, r, s.handlers[h].stage)
  }

  /** Only towards matching: what is in place stays in place. */
  predicate Nearer(cfg: Settings, r: Record, w: World, w': World) {
    && r.id in w.store && r.id in w'.store
    && (FileMatches(cfg, w.ledger, r) ==> FileMatches(cfg, w'.ledger, r))
    && (ObjectMatches(cfg, w.ledger, r) ==> ObjectMatches(cfg, w'.ledger, r))
    && (Marked(Config, w.store[r.id]) ==> Marked(Config, w'.store[r.id]))
    && AgreeOutside(Config, r, w'.store[r.id])
    && (w'.store[r.id] == w.store[r.id] || Matches(cfg, w', w'.store[r.id]))
  }

  lemma WriteFileRenders(cfg: Settings, w: World, r: Record, local: Record, o: Outcome)
    requires AgreeOutside(Config, r, local)
    ensures match Perform(cfg, Config, WriteEnvFile, w, local, o)
            case Go(w', local') =>
              && w'.store == w.store && FileMatches(cfg, w'.ledger, r)
              && (ObjectMatches(cfg, w.ledger, r) <==> ObjectMatches(cfg, w'.ledger, r))
              && local' == local.(localEnvPath := EnvPath(cfg, r.id))
            case Stop(w', answer) =>
              && answer == Refused && w'.store == w.store
              && (ObjectMatches(cfg, w.ledger, r) <==> ObjectMatches(cfg, w'.ledger, r))
              && (FileMatches(cfg, w.ledger, r) ==> FileMatches(cfg, w'.ledger, r))
  {
    hide EnvPath, With, Without;
    assert EnvFileOf(cfg, r) == EnvFileOf(cfg, local);
  }

  lemma UploadRenders(cfg: Settings, w: World, r: Record, local: Record, o: Outcome)
    requires AgreeOutside(Config, r, local)
    ensures match Perform(cfg, Config, UploadConfig, w, local, o)
            case Go(w', local') =>
              && w'.store == w.store && ObjectMatches(cfg, w'.ledger, r)
              && (FileMatches(cfg, w.ledger, r) <==> FileMatches(cfg, w'.ledger, r))
              && local' == local
            case Stop(w', answer) =>
              && answer == Refused && w'.store == w.store
              && (FileMatches(cfg, w.ledger, r) <==> FileMatches(cfg, w'.ledger, r))
              && (ObjectMatches(cfg, w.ledger, r) ==> ObjectMatches(cfg, w'.ledger, r))
  {
    hide EnvPath, With, Without;
    assert ConfigJsonOf(cfg, r) == ConfigJsonOf(cfg, local);
  }

  lemma ConfigTick(cfg: Settings, w: World, r: Record, handler: Handler, o: Outcome)
    requires r.id in w.store && AgreeOutside(Config, r, w.store[r.id])
    requires handler.step == Config && handler.dir == Forward && Rendering(cfg, w, r, handler.stage)
    ensures
      var (w', handler') := Tick(cfg, w, r.id, handler, o);
      && Nearer(cfg, r, w, w') && Rendering(cfg, w', r, handler'.stage) && handler'.step == Config
      && handler'.dir == Forward
  {
    hide FileMatches, ObjectMatches, EnvPath, Attempt, With, Without;
    if handler.stage.Working? && handler.stage.pc < |handler.stage.prog| {
      var a := handler.stage.prog[handler.stage.pc];
      var local := handler.stage.local;
      match a {
        case UploadConfig => hide Perform; UploadRenders(cfg, w, r, local, o);
        case WriteEnvFile => hide Perform; WriteFileRenders(cfg, w, r, local, o);
        case Put => RendersAlike(cfg, r, local, w.ledger);
        case Check =>
      }
    }
  }

  lemma NearerRendering(cfg: Settings, r: Record, w: World, w': World, stage: Stage)
    requires Nearer(cfg, r, w, w') && Rendering(cfg, w, r, stage)
    ensures Rendering(cfg, w', r, stage)
  {
    hide FileMatches, ObjectMatches, EnvPath, Blank;
  }

  lemma NearerMatches(cfg: Settings, r: Record, w: World, w': World)
    requires Nearer(cfg, r, w, w') && AgreeOutside(Config, r, w.store[r.id])
    requires Marked(Config, w.store[r.id]) ==> Matches(cfg, w, w.store[r.id])
    ensures Marked(Config, w'.store[r.id]) ==> Matches(cfg, w', w'.store[r.id])
  {
    hide FileMatches, ObjectMatches, EnvPath;
    RendersAlike(cfg, r, w.store[r.id], w.ledger);
    RendersAlike(cfg, r, w'.store[r.id], w'.ledger);
  }

  lemma ConfigAct(cfg: Settings, r: Record, s: Sys, h: Hid, o: Outcome)
    requires ConfigPhase(cfg, r, s) && h in s.handlers
    ensures ConfigPhase(cfg, r, Advance(cfg, s, Act(h, o)))
  {
    hide Tick, Rendering, Nearer, Matches, Blank;
    ConfigTick(cfg, s.world, r, s.handlers[h], o);
    var s' := Advance(cfg, s, Act(h, o));
    NearerRow(cfg, r, s.world, s'.world);
    NearerMatches(cfg, r, s.world, s'.world);
    forall g | g in s.handlers && g != h ensures Rendering(cfg, s'.world, r, s.handlers[g].stage) {
      NearerRendering(cfg, r, s.world, s'.world, s.handlers[g].stage);
    }
  }

  lemma NearerRow(cfg: Settings, r: Record, w: World, w': World)
    requires Nearer(cfg, r, w, w')
    ensures r.id in w'.store && AgreeOutside(Config, r, w'.store[r.id])
  {
  }

  lemma ConfigElse(cfg: Settings, r: Record, s: Sys, ev: Event)
    requires ConfigPhase(cfg, r, s)
    requires ev.Act? ==> ev.h !in s.handlers
    requires ev.Arrive? ==> ev.h.envId == r.id && ev.step == Config && ev.dir == Forward
    ensures ConfigPhase(cfg, r, Advance(cfg, s, ev))
  {
    hide Blank, Matches, Tick;
  }

  lemma {:induction false} ConfigRun(cfg: Settings, r: Record, s: Sys, evs: seq<Event>)
    requires ConfigPhase(cfg, r, s) && Only(evs, r.id, Config, Forward)
    ensures ConfigPhase(cfg, r, Run(cfg, s, evs))
    decreases |evs|
  {
    if evs == [] {
    } else {
      hide ConfigPhase, Advance;
      if evs[0].Act? && evs[0].h in s.handlers {
        ConfigAct(cfg, r, s, evs[0].h, evs[0].o);
      } else {
        ConfigElse(cfg, r, s, evs[0]);
      }
      ConfigRun(cfg, r, Advance(cfg, s, evs[0]), evs[1..]);
    }
  }

  /** A config phase, in either mode: at every moment a record marked by it is matched, and it is marked once
      acknowledged. */
  lemma ConfigPhaseMatches(cfg: Settings, w: World, id: EnvId, evs: seq<Event>)
    requires id in w.store && w.store[id].id == id && Only(evs, id, Config, Forward)
    requires Marked(Config, w.store[id]) ==> Matches(cfg, w, w.store[id])
    ensures
      var w' := Run(cfg, Sys(w, map[]), evs).world;
      && id in w'.store
      && (Marked(Config, w'.store[id]) ==> Matches(cfg, w', w'.store[id]))
      && (SomeAck(Run(cfg, Sys(w, map[]), evs)) ==> Marked(Config, w'.store[id]))
  {
    hide Run, Matches, Blank;
    ConfigRun(cfg, w.store[id], Sys(w, map[]), evs);
    var s := Run(cfg, Sys(w, map[]), evs);
    if SomeAck(s) {
      var h :| h in s.handlers && s.handlers[h].stage == Replied(Acked);
      assert Rendering(cfg, s.world, w.store[id], s.handlers[h].stage);
    }
  }

  /** The record's own values and the worker's addresses, field by field. */
  predicate Carries(cfg: Settings, file: EnvFile, r: Record) {
    && file.envId == r.id && file.rdsEndpoint == r.rdsEndpoint && file.rdsPassword == r.rdsPassword
    && file.s3Bucket == r.s3BucketName
    && file.spiffeSocket == "/run/spire/sockets/agent.sock"
    && file.exchangeAddr == cfg.exchangeAddr && file.jwksUrl == "http://" + cfg.exchangeAddr + "/jwks"
  }

  lemma MatchingCarries(cfg: Settings, x: World, r: Record)
    ensures
      Matches(cfg, x, r) ==>
        && FileKey(r.localEnvPath) in x.ledger && x.ledger[FileKey(r.localEnvPath)].FileItem?
        && r.localEnvPath == cfg.envDir + "/env-" + r.id[..8] + ".env"
        && Carries(cfg, x.ledger[FileKey(r.localEnvPath)].file, r)
        && (!r.dryRun ==>
              var k := BucketKey(r.s3BucketName);
              && k in x.ledger && x.ledger[k].BucketItem? && |x.ledger[k].versions| > 0
              && x.ledger[k].versions[0].Json? && Carries(cfg, x.ledger[k].versions[0].body.env, r)
              && x.ledger[k].versions[0].body.trustDomain == cfg.trustDomain)
  {
  }
}
