/** Dry-run requests in any order: the stored record is always the rendering of a set of done steps. */
module DoneSets {
  import opened Records
  import opened Ledgers
  import opened Handlers
  import opened DryRun
  import opened Groups
  import opened Deliveries

  /** The record that shows exactly these steps as done, field by field. */
  function Render(cfg: Settings, i: Ident, status: string, done: set<Step>): Record {
    var p := Short(i.id);
    Record(
      i.id, i.owner, if Registry in done then "ready" else status, i.sagaId, i.dryRun, i.createdAt,
      if Vpc in done then "vpc-dryrun-" + p else "",
      if Vpc in done then "subnet-pub-" + p else "",
      if Vpc in done then "subnet-prv-" + p else "",
      if Vpc in done then "sg-" + p else "",
      if Rds in done then "db-dryrun-" + p else "",
      if Rds in done then "db-dryrun-" + p + ".us-east-1.rds.amazonaws.com:5432" else "",
      if Rds in done then "dryrunpassword" else "",
      if Ec2 in done then "i-dryrun-" + p else "",
      if Ec2 in done then "1.2.3.4" else "",
      if S3 in done then "env-forge-dryrun-" + p else "",
      if Identity !in done then []
      else if cfg.connected then ["spiffe://" + cfg.trustDomain + "/env-" + p + "/app",
                                  "spiffe://" + cfg.trustDomain + "/env-" + p + "/db-proxy"]
      else ["entry-app-dryrun-" + p, "entry-db-dryrun-" + p],
      if Identity in done then "policy-env-" + p else "",
      if Config in done then cfg.envDir + "/env-" + p + ".env" else "",
      i.failAtHealth)
  }

  lemma RenderKeepsIdent(cfg: Settings, i: Ident, status: string, done: set<Step>)
    ensures IdentOf(Render(cfg, i, status, done)) == i
  {
  }

  lemma MarkedIsDone(r: Record, step: Step)
    ensures step in DoneSet(r) <==> Marked(step, r)
  {
    match step {
      case Vpc => assert STEPS[0] == step;
      case Rds => assert STEPS[1] == step;
      case Ec2 => assert STEPS[2] == step;
      case S3 => assert STEPS[3] == step;
      case Identity => assert STEPS[4] == step;
      case Config => assert STEPS[5] == step;
      case Health => assert STEPS[6] == step;
      case Registry => assert STEPS[7] == step;
    }
  }

  /** The groups of one half of the record agree with what rendering the done set shows. */
  lemma FirstGroups(cfg: Settings, r: Record, q: Record)
    requires Canonical(cfg, r) && q == Render(cfg, IdentOf(r), r.status, DoneSet(r))
    ensures q.vpcId == r.vpcId && q.publicSubnetId == r.publicSubnetId && q.privateSubnetId == r.privateSubnetId
            && q.securityGroupId == r.securityGroupId
    ensures q.rdsInstanceId == r.rdsInstanceId && q.rdsEndpoint == r.rdsEndpoint && q.rdsPassword == r.rdsPassword
    ensures q.ec2InstanceId == r.ec2InstanceId && q.ec2PublicIp == r.ec2PublicIp
  {
    hide DoneSet, Short, EnvPath, PolicyName, AppSpiffeId, DbProxySpiffeId;
    MarkedIsDone(r, Vpc);
    MarkedIsDone(r, Rds);
    MarkedIsDone(r, Ec2);
    assert GroupCanonical(cfg, Vpc, r) && GroupCanonical(cfg, Rds, r) && GroupCanonical(cfg, Ec2, r);
  }

  lemma LaterGroups(cfg: Settings, r: Record, q: Record)
    requires Canonical(cfg, r) && q == Render(cfg, IdentOf(r), r.status, DoneSet(r))
    ensures q.s3BucketName == r.s3BucketName && q.spireEntryIds == r.spireEntryIds
            && q.svidExchangePolicyName == r.svidExchangePolicyName
    ensures q.localEnvPath == r.localEnvPath && q.status == r.status && IdentOf(q) == IdentOf(r)
  {
    hide DoneSet, Short;
    MarkedIsDone(r, S3);
    MarkedIsDone(r, Identity);
    MarkedIsDone(r, Config);
    MarkedIsDone(r, Registry);
    assert GroupCanonical(cfg, S3, r) && GroupCanonical(cfg, Identity, r) && GroupCanonical(cfg, Config, r);
  }

  /** Canonical records are determined by their done set. */
  lemma CanonicalIsRendered(cfg: Settings, r: Record)
    requires Canonical(cfg, r)
    ensures r == Render(cfg, IdentOf(r), r.status, DoneSet(r))
  {
    hide Canonical, Render, DoneSet;
    var q := Render(cfg, IdentOf(r), r.status, DoneSet(r));
    FirstGroups(cfg, r, q);
    LaterGroups(cfg, r, q);
  }

  datatype Delivery = Delivery(step: Step, dir: Direction, script: seq<Outcome>)

  /** What a delivery does to the set of done steps when its Put is applied. */
  function Credit(done: set<Step>, d: Delivery): set<Step> {
    if d.step == Health then done
    else if d.dir == Forward then done + {d.step}
    else done - {d.step}
  }

  lemma GoalCredits(cfg: Settings, r: Record, d: Delivery)
    ensures DoneSet(Goal(cfg, d.step, d.dir, r)) == Credit(DoneSet(r), d)
  {
    hide DoneSet;
    forall s: Step ensures s in DoneSet(Goal(cfg, d.step, d.dir, r)) <==> s in Credit(DoneSet(r), d) {
      MarkedIsDone(r, s);
      MarkedIsDone(Goal(cfg, d.step, d.dir, r), s);
      if s != d.step {
        hide With, Without, Marked;
        MarksElsewhere(cfg, s, d.step, r);
      }
    }
  }

  /** The deliveries ds, one after the other. */
  function Deliver(cfg: Settings, w: World, id: string, ds: seq<Delivery>): World {
    if ds == [] then w
    else
      var n := |ds| - 1;
      Serve(cfg, Deliver(cfg, w, id, ds[..n]), id, ds[n].step, ds[n].dir, ds[n].script).0
  }

  function AnswerTo(cfg: Settings, w: World, id: string, ds: seq<Delivery>, i: nat): Answer
    requires i < |ds|
  {
    Serve(cfg, Deliver(cfg, w, id, ds[..i]), id, ds[i].step, ds[i].dir, ds[i].script).1
  }

  function Tally(done: set<Step>, ds: seq<Delivery>, applied: seq<bool>): set<Step>
    requires |applied| == |ds|
  {
    if ds == [] then done
    else
      var n := |ds| - 1;
      var before := Tally(done, ds[..n], applied[..n]);
      if applied[n] then Credit(before, ds[n]) else before
  }

  /** Any requests in any order, repeated, failing or crashing anywhere: each is all or nothing, an acknowledged one
      is all, and the record is the rendering of the steps so credited. */
  lemma {:induction false} DoneSetRefinement(cfg: Settings, w: World, id: EnvId,
                                             ds: seq<Delivery>) returns (applied: seq<bool>)
    requires DryRow(cfg, w, id)
    ensures |applied| == |ds|
    ensures forall i | 0 <= i < |ds| :: AnswerTo(cfg, w, id, ds, i) == Acked ==> applied[i]
    ensures
      var w' := Deliver(cfg, w, id, ds);
      && DryRow(cfg, w', id)
      && DoneSet(w'.store[id]) == Tally(DoneSet(w.store[id]), ds, applied)
      && w'.store == w.store[id := Render(cfg, IdentOf(w.store[id]), w'.store[id].status,
                                          Tally(DoneSet(w.store[id]), ds, applied))]
    decreases |ds|
  {
    hide Serve, DoneSet, Canonical, Render, Goal;
    if ds == [] {
      applied := [];
      assert w.store == w.store[id := w.store[id]];
      CanonicalIsRendered(cfg, w.store[id]);
    } else {
      var n := |ds| - 1;
      var before := DoneSetRefinement(cfg, w, id, ds[..n]);
      var x := Deliver(cfg, w, id, ds[..n]);
      var landed := OneDelivery(cfg, x, id, ds[n]);
      applied := before + [landed];
      assert applied[..n] == before;
      forall i | 0 <= i < |ds| ensures AnswerTo(cfg, w, id, ds, i) == Acked ==> applied[i] {
        if i < n {
          assert ds[..n][..i] == ds[..i] && ds[..n][i] == ds[i];
          assert AnswerTo(cfg, w, id, ds[..n], i) == AnswerTo(cfg, w, id, ds, i);
        }
      }
      var w' := Deliver(cfg, w, id, ds);
      CanonicalIsRendered(cfg, w'.store[id]);
      RenderKeepsIdent(cfg, IdentOf(w.store[id]), x.store[id].status, Tally(DoneSet(w.store[id]), ds[..n], before));
      assert IdentOf(w'.store[id]) == IdentOf(x.store[id]) == IdentOf(w.store[id]);
    }
  }

  lemma OneDelivery(cfg: Settings, x: World, id: EnvId, d: Delivery) returns (landed: bool)
    requires DryRow(cfg, x, id)
    ensures
      var (y, answer) := Serve(cfg, x, id, d.step, d.dir, d.script);
      && DryRow(cfg, y, id)
      && y.store == x.store[id := y.store[id]]
      && IdentOf(y.store[id]) == IdentOf(x.store[id])
      && DoneSet(y.store[id]) == (if landed then Credit(DoneSet(x.store[id]), d) else DoneSet(x.store[id]))
      && (answer == Acked ==> landed)
  {
    hide Serve, DoneSet, Canonical, Goal, GoalLedger;
    DeliveryIsAPhase(cfg, x, id, d.step, d.dir, d.script);
    GoalRow(cfg, x, id, d.step, d.dir);
    CanonicalGoal(cfg, d.step, d.dir, x.store[id]);
    GoalCredits(cfg, x.store[id], d);
    var y := Serve(cfg, x, id, d.step, d.dir, d.script).0;
    assert x.store == x.store[id := x.store[id]];
    landed := y.store == GoalWorld(cfg, x, id, d.step, d.dir).store;
  }
}
