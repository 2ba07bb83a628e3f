/** The groups of fields of a dry-run record: what filling and emptying one does to the others. */
module Groups {
  import opened Records
  import opened DryRun

  /** The record after the first k steps. */
  function AllWith(cfg: Settings, k: nat, r: Record): Record
    requires k <= |STEPS|
  {
    if k == 0 then r else With(cfg, STEPS[k - 1], AllWith(cfg, k - 1, r))
  }

  /** A step writes nothing another step reads or writes. */
  predicate Independent(cfg: Settings, s: Step, t: Step, r: Record) {
    && With(cfg, s, With(cfg, t, r)) == With(cfg, t, With(cfg, s, r))
    && Without(s, With(cfg, t, r)) == With(cfg, t, Without(s, r))
    && Without(t, With(cfg, s, r)) == With(cfg, s, Without(t, r))
    && Without(s, Without(t, r)) == Without(t, Without(s, r))
  }

  lemma VpcIndependent(cfg: Settings, t: Step, r: Record)
    requires t != Vpc
    ensures Independent(cfg, Vpc, t, r)
  {
    hide EnvPath, PolicyName, AppSpiffeId, DbProxySpiffeId;
  }

  lemma RdsIndependent(cfg: Settings, t: Step, r: Record)
    requires t != Rds
    ensures Independent(cfg, Rds, t, r)
  {
    hide EnvPath, PolicyName, AppSpiffeId, DbProxySpiffeId;
  }

  lemma Ec2Independent(cfg: Settings, t: Step, r: Record)
    requires t != Ec2
    ensures Independent(cfg, Ec2, t, r)
  {
    hide EnvPath, PolicyName, AppSpiffeId, DbProxySpiffeId;
  }

  lemma S3Independent(cfg: Settings, t: Step, r: Record)
    requires t != S3
    ensures Independent(cfg, S3, t, r)
  {
    hide EnvPath, PolicyName, AppSpiffeId, DbProxySpiffeId;
  }

  lemma IdentityIndependent(cfg: Settings, t: Step, r: Record)
    requires t != Identity
    ensures Independent(cfg, Identity, t, r)
  {
    hide Independent;
    if t == Vpc || t == Rds || t == Ec2 { IdentityAndMachines(cfg, t, r); } else { IdentityAndLater(cfg, t, r); }
  }

  lemma IdentityAndMachines(cfg: Settings, t: Step, r: Record)
    requires t == Vpc || t == Rds || t == Ec2
    ensures Independent(cfg, Identity, t, r)
  {
    hide EnvPath, PolicyName, AppSpiffeId, DbProxySpiffeId, Short;
  }

  lemma IdentityAndLater(cfg: Settings, t: Step, r: Record)
    requires t == S3 || t == Config || t == Health || t == Registry
    ensures Independent(cfg, Identity, t, r)
  {
    hide EnvPath, PolicyName, AppSpiffeId, DbProxySpiffeId, Short;
  }

  lemma ConfigIndependent(cfg: Settings, t: Step, r: Record)
    requires t != Config
    ensures Independent(cfg, Config, t, r)
  {
    hide EnvPath, PolicyName, AppSpiffeId, DbProxySpiffeId;
  }

  lemma HealthIndependent(cfg: Settings, t: Step, r: Record)
    ensures Independent(cfg, Health, t, r)
  {
    hide EnvPath, PolicyName, AppSpiffeId, DbProxySpiffeId;
  }

  lemma RegistryIndependent(cfg: Settings, t: Step, r: Record)
    requires t != Registry
    ensures Independent(cfg, Registry, t, r)
  {
    hide EnvPath, PolicyName, AppSpiffeId, DbProxySpiffeId;
  }

  lemma StepsIndependent(cfg: Settings, s: Step, t: Step, r: Record)
    requires s != t
    ensures Independent(cfg, s, t, r)
  {
    hide Independent;
    match s {
      case Vpc => VpcIndependent(cfg, t, r);
      case Rds => RdsIndependent(cfg, t, r);
      case Ec2 => Ec2Independent(cfg, t, r);
      case S3 => S3Independent(cfg, t, r);
      case Identity => IdentityIndependent(cfg, t, r);
      case Config => ConfigIndependent(cfg, t, r);
      case Health => HealthIndependent(cfg, t, r);
      case Registry => RegistryIndependent(cfg, t, r);
    }
  }

  lemma MarksElsewhere(cfg: Settings, s: Step, t: Step, r: Record)
    requires s != t
    ensures Marked(s, With(cfg, t, r)) == Marked(s, r) == Marked(s, Without(t, r))
  {
    hide EnvPath, PolicyName, AppSpiffeId, DbProxySpiffeId, Short;
  }

  lemma WithoutIsBlank(s: Step, r: Record)
    requires s != Registry
    ensures Without(s, r) == Blank(s, r)
  {
  }

  lemma OwnGroup(cfg: Settings, step: Step, dir: Direction, r: Record)
    requires GroupCanonical(cfg, step, r)
    ensures GroupCanonical(cfg, step, Goal(cfg, step, dir, r))
  {
    hide EnvPath, PolicyName, AppSpiffeId, DbProxySpiffeId;
  }

  lemma WithKeepsGroup(cfg: Settings, step: Step, r: Record, s: Step)
    requires GroupCanonical(cfg, s, r) && step != s && s != Registry
    ensures GroupCanonical(cfg, s, With(cfg, step, r))
  {
    hide With, Marked, Blank, Without;
    WithoutIsBlank(s, r);
    WithoutIsBlank(s, With(cfg, step, r));
    MarksElsewhere(cfg, s, step, r);
    StepsIndependent(cfg, s, step, r);
  }

  lemma WithoutKeepsGroup(cfg: Settings, step: Step, r: Record, s: Step)
    requires GroupCanonical(cfg, s, r) && step != s && s != Registry
    ensures GroupCanonical(cfg, s, Without(step, r))
  {
    hide With, Marked, Blank, Without;
    WithoutIsBlank(s, r);
    WithoutIsBlank(s, Without(step, r));
    MarksElsewhere(cfg, s, step, r);
    StepsIndependent(cfg, s, step, r);
  }

  lemma GoalKeepsGroup(cfg: Settings, step: Step, dir: Direction, r: Record, s: Step)
    requires GroupCanonical(cfg, s, r)
    ensures GroupCanonical(cfg, s, Goal(cfg, step, dir, r))
  {
    if step == s {
      OwnGroup(cfg, step, dir, r);
    } else if s != Registry {
      hide GroupCanonical, With, Without;
      WithKeepsGroup(cfg, step, r, s);
      WithoutKeepsGroup(cfg, step, r, s);
    }
  }

  lemma CanonicalGoal(cfg: Settings, step: Step, dir: Direction, r: Record)
    requires DryRecord(cfg, r)
    ensures DryRecord(cfg, Goal(cfg, step, dir, r)) && IdentOf(Goal(cfg, step, dir, r)) == IdentOf(r)
  {
    hide GroupCanonical, Goal;
    forall s: Step ensures GroupCanonical(cfg, s, Goal(cfg, step, dir, r)) {
      GoalKeepsGroup(cfg, step, dir, r, s);
    }
    GoalKeepsIdent(cfg, step, dir, r);
  }

  lemma GoalKeepsIdent(cfg: Settings, step: Step, dir: Direction, r: Record)
    ensures IdentOf(Goal(cfg, step, dir, r)) == IdentOf(r) && Goal(cfg, step, dir, r).id == r.id
            && Goal(cfg, step, dir, r).dryRun == r.dryRun
  {
    hide EnvPath, PolicyName, AppSpiffeId, DbProxySpiffeId;
  }

  lemma {:induction false} AllWithKeeps(cfg: Settings, k: nat, r: Record)
    requires k <= |STEPS| && DryRecord(cfg, r)
    ensures DryRecord(cfg, AllWith(cfg, k, r)) && IdentOf(AllWith(cfg, k, r)) == IdentOf(r)
            && AllWith(cfg, k, r).id == r.id
  {
    if k > 0 {
      hide DryRecord;
      AllWithKeeps(cfg, k - 1, r);
      CanonicalGoal(cfg, STEPS[k - 1], Forward, AllWith(cfg, k - 1, r));
    }
  }

  /** A step stays marked, and is marked once its turn has come. */
  lemma {:induction false} AllWithMarks(cfg: Settings, k: nat, r: Record, s: Step)
    requires k <= |STEPS| && s != Health
    ensures Marked(s, AllWith(cfg, k, r)) <==> Marked(s, r) || s in STEPS[..k]
  {
    if k > 0 {
      hide With, Marked;
      AllWithMarks(cfg, k - 1, r, s);
      assert STEPS[..k] == STEPS[..k - 1] + [STEPS[k - 1]];
      assert s in STEPS[..k] <==> s in STEPS[..k - 1] || s == STEPS[k - 1];
      if s == STEPS[k - 1] {
        WithMarks(cfg, s, AllWith(cfg, k - 1, r));
      } else {
        MarksElsewhere(cfg, s, STEPS[k - 1], AllWith(cfg, k - 1, r));
      }
    }
  }

  lemma WithMarks(cfg: Settings, s: Step, r: Record)
    ensures s != Health ==> Marked(s, With(cfg, s, r))
  {
    hide EnvPath, PolicyName, AppSpiffeId, DbProxySpiffeId;
  }

  // ----- undoing -----

  predicate NothingRecorded(r: Record, k: nat)
    requires k <= |STEPS|
  {
    forall i | k <= i < 6 :: r == Blank(STEPS[i], r)
  }

  lemma FreshRecordsNothing(r: Record)
    requires Fresh(r)
    ensures NothingRecorded(r, 0)
  {
  }

  lemma LaterStepsBlank(cfg: Settings, s: Step, t: Step, r: Record)
    requires s != t && s != Registry && r == Blank(s, r)
    ensures With(cfg, t, r) == Blank(s, With(cfg, t, r))
  {
    hide With, Blank, Without;
    StepsIndependent(cfg, s, t, r);
    WithoutIsBlank(s, r);
    WithoutIsBlank(s, With(cfg, t, r));
  }

  lemma {:induction false} AllWithBlankAhead(cfg: Settings, k: nat, r: Record)
    requires k <= |STEPS| && NothingRecorded(r, 0)
    ensures NothingRecorded(AllWith(cfg, k, r), k)
  {
    if k > 0 {
      AllWithBlankAhead(cfg, k - 1, r);
      hide With, Blank;
      var q := AllWith(cfg, k - 1, r);
      forall i | k <= i < 6 ensures AllWith(cfg, k, r) == Blank(STEPS[i], AllWith(cfg, k, r)) {
        assert q == Blank(STEPS[i], q);
        LaterStepsBlank(cfg, STEPS[i], STEPS[k - 1], q);
      }
    }
  }

  lemma WithoutOwnWith(cfg: Settings, s: Step, r: Record)
    requires s != Registry && r == Blank(s, r)
    ensures Without(s, With(cfg, s, r)) == r
  {
    hide EnvPath, PolicyName, AppSpiffeId, DbProxySpiffeId;
  }

  /** The record after j done steps, with the group of step late added when stray holds. */
  function Shown(cfg: Settings, j: nat, r: Record, late: Step, stray: bool): Record
    requires j <= |STEPS|
  {
    if stray then With(cfg, late, AllWith(cfg, j, r)) else AllWith(cfg, j, r)
  }

  /** Compensating the newest of j done steps leaves the j - 1 older ones, with or without a stray later group. */
  lemma UndoNewest(cfg: Settings, j: nat, r: Record, late: Step, stray: bool)
    requires 0 < j < |STEPS| && NothingRecorded(r, 0) && late !in STEPS[..j]
    ensures Without(STEPS[j - 1], Shown(cfg, j, r, late, stray)) == Shown(cfg, j - 1, r, late, stray)
  {
    hide With, Without;
    var s := STEPS[j - 1];
    var q := AllWith(cfg, j - 1, r);
    AllWithBlankAhead(cfg, j - 1, r);
    assert s in STEPS[..j];
    assert q == Blank(s, q);
    hide Blank;
    WithoutOwnWith(cfg, s, q);
    StepsIndependent(cfg, s, late, AllWith(cfg, j, r));
  }
}
