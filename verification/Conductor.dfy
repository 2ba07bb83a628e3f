/** What saga-conductor is told (internal/conductor/client.go). */
module Conductor {
  import opened Records
  import Worker

  datatype StepSpec = StepSpec(name: string, fwd: string, comp: string, timeoutSeconds: nat, maxRetries: nat,
                               retryBackoffMs: nat)

  datatype StepDefinition = StepDefinition(name: string, forwardUrl: string, compensateUrl: string,
                                           timeoutSeconds: nat, maxRetries: nat, retryBackoffMs: nat)

  const SPECS: seq<StepSpec> := [
    StepSpec("vpc", "/steps/" + "vpc", "/steps/" + "vpc" + "/compensate", 30, 2, 500),
    StepSpec("rds", "/steps/" + "rds", "/steps/" + "rds" + "/compensate", 600, 3, 2000),
    StepSpec("ec2", "/steps/" + "ec2", "/steps/" + "ec2" + "/compensate", 300, 3, 2000),
    StepSpec("s3", "/steps/" + "s3", "/steps/" + "s3" + "/compensate", 30, 2, 500),
    StepSpec("identity", "/steps/" + "identity", "/steps/" + "identity" + "/compensate", 30, 2, 500),
    StepSpec("config", "/steps/" + "config", "/steps/" + "config" + "/compensate", 30, 2, 500),
    StepSpec("health", "/steps/" + "health", "/steps/" + "health" + "/compensate", 60, 1, 1000),
    StepSpec("registry", "/steps/" + "registry", "/steps/" + "registry" + "/compensate", 10, 1, 200)]

  /** Entry i is for step i of the order. */
  lemma SpecsFollowSteps(i: nat)
    requires i < |STEPS|
    ensures |SPECS| == |STEPS| && SPECS[i].name == Worker.Name(STEPS[i])
    ensures SPECS[i].fwd == Worker.Path(STEPS[i], Forward) && SPECS[i].comp == Worker.Path(STEPS[i], Compensate)
  {
    match STEPS[i] {
      case Vpc =>
      case Rds =>
      case Ec2 =>
      case S3 =>
      case Identity =>
      case Config =>
      case Health =>
      case Registry =>
    }
  }

  function Defined(selfUrl: string, sp: StepSpec): StepDefinition {
    StepDefinition(sp.name, selfUrl + sp.fwd, selfUrl + sp.comp, sp.timeoutSeconds, sp.maxRetries, sp.retryBackoffMs)
  }

  lemma SpecsAre(selfUrl: string, i: nat)
    requires i < |SPECS|
    ensures |SPECS| == 8 && IsDefinition(Defined(selfUrl, SPECS[i]), selfUrl, i)
  {
  }

  /** Definition i, written out. */
  predicate IsDefinition(d: StepDefinition, selfUrl: string, i: nat)
    requires i < 8
  {
    var name := ["vpc", "rds", "ec2", "s3", "identity", "config", "health", "registry"][i];
    d == StepDefinition(name, selfUrl + ("/steps/" + name), selfUrl + ("/steps/" + name + "/compensate"),
                        [30, 600, 300, 30, 30, 30, 60, 10][i], [2, 3, 3, 2, 2, 2, 1, 1][i],
                        [500, 2000, 2000, 500, 500, 500, 1000, 200][i])
  }

  /** Definition i has the name, both URLs and the limits of step i of the order, and they are the worker's own. */
  method BuildStepDefs(selfUrl: string) returns (defs: array<StepDefinition>)
    ensures fresh(defs) && defs.Length == |STEPS| == 8
    ensures forall i | 0 <= i < 8 :: IsDefinition(defs[i], selfUrl, i)
    ensures forall i | 0 <= i < 8 ::
              && defs[i].name == Worker.Name(STEPS[i])
              && defs[i].forwardUrl == selfUrl + Worker.Path(STEPS[i], Forward)
              && defs[i].compensateUrl == selfUrl + Worker.Path(STEPS[i], Compensate)
  {
    hide SPECS, Worker.Path, Worker.Name, IsDefinition;
    SpecsFollowSteps(0);
    defs := new StepDefinition[|SPECS|];
    for i := 0 to |SPECS|
      invariant forall j | 0 <= j < i :: defs[j] == Defined(selfUrl, SPECS[j])
    {
      var sp := SPECS[i];
      defs[i] := StepDefinition(sp.name, selfUrl + sp.fwd, selfUrl + sp.comp, sp.timeoutSeconds, sp.maxRetries,
                                sp.retryBackoffMs);
    }
    forall i | 0 <= i < 8
      ensures IsDefinition(defs[i], selfUrl, i)
      ensures defs[i].name == Worker.Name(STEPS[i])
              && defs[i].forwardUrl == selfUrl + Worker.Path(STEPS[i], Forward)
              && defs[i].compensateUrl == selfUrl + Worker.Path(STEPS[i], Compensate)
    {
      SpecsAre(selfUrl, i);
      SpecsFollowSteps(i);
    }
  }

  /** The idempotency key of an environment's saga. */
  function SagaKey(id: EnvId): string {
    "env-" + id
  }

  /** A repeated call for the same environment reaches the same saga, and no two environments share one. */
  lemma SagaKeysDiffer(a: EnvId, b: EnvId)
    ensures SagaKey(a) == SagaKey(b) <==> a == b
  {
    assert SagaKey(a)[4..] == a && SagaKey(b)[4..] == b;
  }
}
