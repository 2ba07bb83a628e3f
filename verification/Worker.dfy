/** forge-worker's HTTP server (internal/server/server.go) and the step definitions the conductor is given
    (internal/conductor/client.go). */
module Worker {
  import opened Records
  import opened Ledgers
  import opened Handlers
  import opened Stores
  import opened Services
  import Purge
  import VpcStep
  import RdsStep
  import Ec2Step
  import S3Step
  import IdentityStep
  import ConfigStep
  import LastSteps

  function Name(step: Step): string {
    match step
    case Vpc => "vpc"
    case Rds => "rds"
    case Ec2 => "ec2"
    case S3 => "s3"
    case Identity => "identity"
    case Config => "config"
    case Health => "health"
    case Registry => "registry"
  }

  lemma NamesDiffer(s: Step, t: Step)
    ensures Name(s) == Name(t) ==> s == t
  {
    assert Name(s)[0] == Name(t)[0] ==> (s == t || {s, t} <= {Rds, Registry});
    assert Name(Rds)[1] != Name(Registry)[1];
  }

  /** The worker's paths for a step. */
  function Path(step: Step, dir: Direction): string {
    if dir == Forward then "/steps/" + Name(step) else "/steps/" + Name(step) + "/compensate"
  }

  lemma PathsDiffer(s: Step, d: Direction, t: Step, e: Direction)
    ensures Path(s, d) == Path(t, e) ==> s == t && d == e
  {
    hide Name;
    NameLength(s);
    NameLength(t);
    NamesDiffer(s, t);
    Middle("/steps/", Name(s), if d == Forward then "" else "/compensate");
    Middle("/steps/", Name(t), if e == Forward then "" else "/compensate");
    assert |"/compensate"| == 11 && |"/steps/"| == 7;
    assert forall n: string :: "/steps/" + n + "" == "/steps/" + n;
  }

  lemma NameLength(s: Step)
    ensures 2 <= |Name(s)| <= 8
  {
  }

  lemma Middle(a: string, b: string, c: string)
    ensures (a + b + c)[|a|..|a| + |b|] == b && |a + b + c| == |a| + |b| + |c|
  {
  }

  /** Exactly the two paths of each registered step are routed, to its name and direction. */
  ghost predicate Routed(allSteps: map<string, Step>, routes: map<string, (string, bool)>) {
    && (forall p :: p in routes ==> exists s, d :: Name(s) in allSteps && p == Path(s, d))
    && (forall s, d :: Name(s) in allSteps ==> Path(s, d) in routes && routes[Path(s, d)] == (Name(s), d == Compensate))
  }

  lemma RoutedMore(allSteps: map<string, Step>, routes: map<string, (string, bool)>, step: Step)
    requires Routed(allSteps, routes)
    ensures
      var more := routes[Path(step, Forward) := (Name(step), false)][Path(step, Compensate) := (Name(step), true)];
      Routed(allSteps[Name(step) := step], more)
  {
    hide Name, Path;
    var all := allSteps[Name(step) := step];
    var more := routes[Path(step, Forward) := (Name(step), false)][Path(step, Compensate) := (Name(step), true)];
    forall p | p in more ensures exists s, d :: Name(s) in all && p == Path(s, d) {
      if p in routes {
        var s, d :| Name(s) in allSteps && p == Path(s, d);
        assert Name(s) in all;
      } else if p == Path(step, Forward) {
        assert Name(step) in all;
      } else {
        assert Name(step) in all;
      }
    }
    forall s, d | Name(s) in all ensures Path(s, d) in more && more[Path(s, d)] == (Name(s), d == Compensate) {
      NamesDiffer(s, step);
      PathsDiffer(s, d, step, Forward);
      PathsDiffer(s, d, step, Compensate);
      if s == step {
        assert d == Forward || d == Compensate;
      } else {
        assert Name(s) in allSteps;
        assert Path(s, d) in routes && more[Path(s, d)] == routes[Path(s, d)];
      }
    }
  }

  /** The request empties a versioned bucket. */
  predicate Purging(r: Record, stepName: string, compensate: bool) {
    compensate && stepName == "s3" && !r.dryRun && r.s3BucketName != ""
  }

  class Server {
    const cfg: Settings
    const store: Store
    const cloud: Cloud
    var allSteps: map<string, Step>
    var routes: map<string, (string, bool)>

    ghost predicate Valid()
      reads this, store
    {
      && store.Valid()
      && (forall n :: n in allSteps ==> Name(allSteps[n]) == n)
      && Routed(allSteps, routes)
    }

    /** Registers the steps one by one under their names. */
    constructor (cfg: Settings, store: Store, cloud: Cloud, steps: seq<Step>)
      requires store.Valid()
      ensures Valid() && this.cfg == cfg && this.store == store && this.cloud == cloud
      ensures forall s :: s in steps <==> Name(s) in allSteps
    {
      this.cfg, this.store, this.cloud := cfg, store, cloud;
      allSteps := map[];
      routes := map[];
      new;
      for i := 0 to |steps|
        invariant Valid() && this.store == store
        invariant forall s :: s in steps[..i] <==> Name(s) in allSteps
      {
        assert steps[..i + 1] == steps[..i] + [steps[i]];
        Register(steps[i]);
      }
      assert steps[..|steps|] == steps;
    }

    method Register(step: Step)
      requires Valid()
      modifies this`allSteps, this`routes
      ensures Valid()
      ensures forall s :: Name(s) in allSteps <==> Name(s) in old(allSteps) || s == step
    {
      hide Path, Name, Routed;
      NamesApart();
      RoutedMore(allSteps, routes, step);
      PathsAre(step);
      allSteps := allSteps[Name(step) := step];
      routes := routes["/steps/" + Name(step) := (Name(step), false)];
      routes := routes["/steps/" + Name(step) + "/compensate" := (Name(step), true)];
    }

    lemma PathsAre(step: Step)
      ensures Path(step, Forward) == "/steps/" + Name(step)
              && Path(step, Compensate) == "/steps/" + Name(step) + "/compensate"
    {
    }

    /** A POST request, routed by its path. */
    method ServeHttp(path: string, envId: string, script: seq<Outcome>, plan: seq<Purge.PagePlan>,
                     now: nat) returns (code: int)
      requires Valid() && |script| >= 11 && plan != []
      requires path in routes && envId in store.rows
               && Purging(store.rows[envId].record, routes[path].0, routes[path].1) ==>
                 script[1] == S3Step.PurgeOutcome(cloud.ledger, store.rows[envId].record.s3BucketName, plan)
      modifies store, cloud
      ensures Valid()
      ensures forall s, d | envId != "" && Name(s) in allSteps && path == Path(s, d) ::
                var (w, answer) := Serve(cfg, old(Sight(store, cloud)), envId, s, d, script);
                && Sight(store, cloud) == w
                && (code == 200 <==> answer == Acked)
                && (code == 500 <==> answer == Refused)
                && (code == 404 <==> answer == Missing)
                && answer != NoReply
      ensures path in routes && envId == "" ==> code == 400
      ensures path in routes && envId != "" && (!script[0].Ok? || envId !in old(store.rows)) ==>
                code == if !script[0].Ok? then 500 else 404
      ensures (forall s, d :: Name(s) in allSteps ==> path != Path(s, d)) ==>
                code == 404 && store.rows == old(store.rows) && cloud.Alone() == old(cloud.Alone())
    {
      hide Serve, Path, Sight, Name;
      if path !in routes { return 404; }
      var (name, compensate) := routes[path];
      code := Handle(envId, name, compensate, script, plan, now);
      forall s, d | envId != "" && Name(s) in allSteps && path == Path(s, d)
        ensures
          var (w, answer) := Serve(cfg, old(Sight(store, cloud)), envId, s, d, script);
          && Sight(store, cloud) == w
          && (code == 200 <==> answer == Acked)
          && (code == 500 <==> answer == Refused)
          && (code == 404 <==> answer == Missing)
          && answer != NoReply
      {
        NamesDiffer(allSteps[Name(s)], s);
      }
    }

    lemma NamesApart()
      ensures forall s, t :: Name(s) == Name(t) ==> s == t
    {
      forall s, t ensures Name(s) == Name(t) ==> s == t { NamesDiffer(s, t); }
    }

    /** One request. script[0] is the outcome of loading the record, script[k + 1] that of the program's action k;
        plan is the page plan of a bucket purge, should the step make one. */
    method Handle(envId: string, stepName: string, compensate: bool, script: seq<Outcome>, plan: seq<Purge.PagePlan>,
                  now: nat) returns (code: int)
      requires Valid() && |script| >= 11 && plan != []
      requires envId in store.rows && Purging(store.rows[envId].record, stepName, compensate) ==>
                 script[1] == S3Step.PurgeOutcome(cloud.ledger, store.rows[envId].record.s3BucketName, plan)
      modifies store, cloud
      ensures Valid()
      ensures envId == "" ==> code == 400 && store.rows == old(store.rows) && cloud.Alone() == old(cloud.Alone())
      ensures envId != "" && (!script[0].Ok? || envId !in old(store.rows) || stepName !in allSteps) ==>
                && code == (if !script[0].Ok? then 500 else 404)
                && store.rows == old(store.rows) && cloud.Alone() == old(cloud.Alone())
      ensures envId != "" && stepName in allSteps ==>
                var (w, answer) := Serve(cfg, old(Sight(store, cloud)), envId, allSteps[stepName],
                                         if compensate then Compensate else Forward, script);
                && Sight(store, cloud) == w
                && (code == 200 <==> answer == Acked)
                && (code == 500 <==> answer == Refused)
                && (code == 404 <==> answer == Missing)
                && answer != NoReply
    {
      hide Carry, Serve, ExecuteCourse, CompensateCourse, AsksCloud, AlreadyDone;
      if envId == "" { return 400; }
      if !script[0].Ok? {
        ServeStarts(cfg, Sight(store, cloud), envId, script);
        return 500;
      }
      ServeStarts(cfg, Sight(store, cloud), envId, script);
      var found := store.Get(envId);
      if found.NotFound? { return 404; }
      var env := new Environment(found.row.record, found.row.updatedAt);
      if stepName !in allSteps { return 404; }
      var step := allSteps[stepName];
      NamesDiffer(step, S3);
      var ok: bool;
      if !compensate {
        var done;
        done, ok := IsAlreadyDone(step, env, cloud, script[1]);
        ForwardServe(cfg, Sight(store, cloud), env.id, step, script);
        if !ok { return 500; }
        if done { return 200; }
        ok := Execute(step, env, script, now);
      } else {
        CompensateServe(cfg, Sight(store, cloud), env.id, step, script);
        ok := Undo(step, env, script, plan, now);
      }
      return if ok then 200 else 500;
    }

    /** Dispatch on the step that was registered. */
    method Execute(step: Step, env: Environment, script: seq<Outcome>, now: nat) returns (ok: bool)
      requires Valid() && |script| >= 11
      modifies env, store, cloud
      ensures store.Valid()
      ensures Ends(ExecuteCourse(cfg, step, old(Sight(store, cloud)), old(env.Value()), script), Sight(store, cloud),
                   ok)
    {
      hide Ends, ForwardProgram;
      match step {
        case Vpc => ok := VpcStep.Execute(cfg, env, store, cloud, script, now);
        case Rds => ok := RdsStep.Execute(cfg, env, store, cloud, script, now);
        case Ec2 => ok := Ec2Step.Execute(cfg, env, store, cloud, script, now);
        case S3 => ok := S3Step.Execute(cfg, env, store, cloud, script, now);
        case Identity => ok := IdentityStep.Execute(cfg, env, store, cloud, script, now);
        case Config => ok := ConfigStep.Execute(cfg, env, store, cloud, script, now);
        case Health => ok := LastSteps.CheckHealth(cfg, env, store, cloud, script);
        case Registry => ok := LastSteps.Register(cfg, env, store, cloud, script, now);
      }
    }

    method Undo(step: Step, env: Environment, script: seq<Outcome>, plan: seq<Purge.PagePlan>,
                now: nat) returns (ok: bool)
      requires Valid() && |script| >= 11 && plan != []
      requires step == S3 && !env.dryRun && env.s3BucketName != "" ==>
                 script[1] == S3Step.PurgeOutcome(cloud.ledger, env.s3BucketName, plan)
      modifies env, store, cloud
      ensures store.Valid()
      ensures Ends(CompensateCourse(cfg, step, old(Sight(store, cloud)), old(env.Value()), script), Sight(store, cloud),
                   ok)
    {
      hide Ends, CompensateProgram, S3Step.PurgeOutcome;
      match step {
        case Vpc => ok := VpcStep.Compensate(cfg, env, store, cloud, script, now);
        case Rds => ok := RdsStep.Compensate(cfg, env, store, cloud, script, now);
        case Ec2 => ok := Ec2Step.Compensate(cfg, env, store, cloud, script, now);
        case S3 => ok := S3Step.Compensate(cfg, env, store, cloud, plan, script, now);
        case Identity => ok := IdentityStep.Compensate(cfg, env, store, cloud, script, now);
        case Config => ok := ConfigStep.Compensate(cfg, env, store, cloud, script, now);
        case Health => ok := LastSteps.UndoHealth(cfg, env, store, cloud, script);
        case Registry => ok := LastSteps.Unregister(cfg, env, store, cloud, script, now);
      }
    }
  }

  method IsAlreadyDone(step: Step, env: Environment, cloud: Cloud, describe: Outcome) returns (done: bool, ok: bool)
    ensures ok == !(AsksCloud(step, env.Value()) && !describe.Ok?)
    ensures ok ==> done == AlreadyDone(step, env.Value(), cloud.ledger)
  {
    done, ok := false, true;
    match step {
      case Vpc => done := VpcStep.IsAlreadyDone(env);
      case Rds => done, ok := RdsStep.IsAlreadyDone(env, cloud, describe);
      case Ec2 => done, ok := Ec2Step.IsAlreadyDone(env, cloud, describe);
      case S3 => done := S3Step.IsAlreadyDone(env);
      case Identity => done := IdentityStep.IsAlreadyDone(env);
      case Config => done := ConfigStep.IsAlreadyDone(env);
      case Health =>
      case Registry => done := env.status == READY;
    }
  }

  lemma ServeStarts(cfg: Settings, w: World, envId: string, script: seq<Outcome>)
    requires |script| > 0
    ensures !script[0].Ok? ==> forall step, dir :: Serve(cfg, w, envId, step, dir, script) == (w, Refused)
    ensures script[0].Ok? && envId !in w.store ==>
              forall step, dir :: Serve(cfg, w, envId, step, dir, script) == (w, Missing)
  {
  }

  lemma ForwardServe(cfg: Settings, w: World, id: EnvId, step: Step, script: seq<Outcome>)
    requires id in w.store && w.store[id].id == id && |script| >= 11 && script[0].Ok?
    ensures
      var r := w.store[id];
      var serve := Serve(cfg, w, id, step, Forward, script);
      if AsksCloud(step, r) && !script[1].Ok? then serve == (w, Refused)
      else if AlreadyDone(step, r, w.ledger) then serve == (w, Acked)
      else serve == ExecuteCourse(cfg, step, w, r, script).end
  {
    hide AsksCloud, AlreadyDone;
  }

  lemma CompensateServe(cfg: Settings, w: World, id: EnvId, step: Step, script: seq<Outcome>)
    requires id in w.store && w.store[id].id == id && |script| >= 11 && script[0].Ok?
    ensures Serve(cfg, w, id, step, Compensate, script) == CompensateCourse(cfg, step, w, w.store[id], script).end
  {
    hide Carry;
  }
}
