/** The environment record (internal/environment/types.go) as a value, split into
    the groups of fields that the eight saga steps own. */
module Records {

  /** Environment IDs are UUID strings; every name derived from one uses its first 8 characters. */
  type EnvId = s: string | 8 <= |s| witness "00000000"

  function Short(id: EnvId): (p: string)
    ensures |p| == 8
  {
    id[..8]
  }

  const PROVISIONING := "provisioning"
  const READY := "ready"
  const FAILED := "failed"
  const DESTROYED := "destroyed"

  /** The stored record. UpdatedAt is kept beside it, in the store's rows. */
  datatype Record = Record(
    id: EnvId, owner: string, status: string, sagaId: string, dryRun: bool, createdAt: nat,
    vpcId: string, publicSubnetId: string, privateSubnetId: string, securityGroupId: string,
    rdsInstanceId: string, rdsEndpoint: string, rdsPassword: string,
    ec2InstanceId: string, ec2PublicIp: string,
    s3BucketName: string,
    spireEntryIds: seq<string>, svidExchangePolicyName: string,
    localEnvPath: string,
    failAtHealth: bool)

  /** The fields that belong to the environment itself rather than to a step. */
  datatype Ident = Ident(id: EnvId, owner: string, sagaId: string, dryRun: bool, createdAt: nat, failAtHealth: bool)

  function IdentOf(r: Record): Ident {
    Ident(r.id, r.owner, r.sagaId, r.dryRun, r.createdAt, r.failAtHealth)
  }

  /** What handleCreateEnv stores first. */
  function NewRecord(id: EnvId, owner: string, dryRun: bool, failAtHealth: bool, createdAt: nat): Record {
    Record(id, owner, PROVISIONING, "", dryRun, createdAt, "", "", "", "", "", "", "", "", "", "", [], "", "",
           failAtHealth)
  }

  datatype Step = Vpc | Rds | Ec2 | S3 | Identity | Config | Health | Registry
  datatype Direction = Forward | Compensate

  /** The order in which the conductor is told to run the steps. */
  const STEPS: seq<Step> := [Vpc, Rds, Ec2, S3, Identity, Config, Health, Registry]

  /** Worker configuration: whether the svid-exchange connection exists, and the strings steps are built with. */
  datatype Settings = Settings(connected: bool, trustDomain: string, exchangeAddr: string, envDir: string)

  function DbName(id: EnvId): (n: string)
    ensures n != ""
  {
    "env-forge-" + Short(id)
  }

  /** S3 buckets follow the same naming scheme as database instances. */
  function BucketName(id: EnvId): (n: string)
    ensures n != ""
  {
    DbName(id)
  }

  function PolicyName(id: EnvId): (n: string)
    ensures n != ""
  {
    "policy-env-" + Short(id)
  }

  function EnvPath(cfg: Settings, id: EnvId): (n: string)
    ensures n != ""
  {
    cfg.envDir + "/env-" + Short(id) + ".env"
  }

  function AppSpiffeId(cfg: Settings, id: EnvId): string {
    "spiffe://" + cfg.trustDomain + "/env-" + Short(id) + "/app"
  }

  function DbProxySpiffeId(cfg: Settings, id: EnvId): string {
    "spiffe://" + cfg.trustDomain + "/env-" + Short(id) + "/db-proxy"
  }

  /** The lines of the local .env file. */
  datatype EnvFile = EnvFile(envId: string, rdsEndpoint: string, rdsPassword: string, s3Bucket: string,
                             spiffeSocket: string, exchangeAddr: string, jwksUrl: string)

  const SPIFFE_SOCKET := "/run/spire/sockets/agent.sock"

  function EnvFileOf(cfg: Settings, r: Record): EnvFile {
    EnvFile(r.id, r.rdsEndpoint, r.rdsPassword, r.s3BucketName, SPIFFE_SOCKET,
            cfg.exchangeAddr, "http://" + cfg.exchangeAddr + "/jwks")
  }

  /** The fields of config.json. */
  datatype ConfigJson = ConfigJson(env: EnvFile, trustDomain: string)

  function ConfigJsonOf(cfg: Settings, r: Record): ConfigJson {
    ConfigJson(EnvFileOf(cfg, r), cfg.trustDomain)
  }

  /** The field each IsAlreadyDone looks at first; health is never done. */
  predicate Marked(step: Step, r: Record) {
    match step
    case Vpc => r.vpcId != ""
    case Rds => r.rdsInstanceId != ""
    case Ec2 => r.ec2InstanceId != ""
    case S3 => r.s3BucketName != ""
    case Identity => r.svidExchangePolicyName != ""
    case Config => r.localEnvPath != ""
    case Health => false
    case Registry => r.status == READY
  }

  /** The record after a dry-run Execute of the step. With an svid-exchange connection identity is real even then. */
  function With(cfg: Settings, step: Step, r: Record): Record {
    var p := Short(r.id);
    match step
    case Vpc => r.(vpcId := "vpc-dryrun-" + p, publicSubnetId := "subnet-pub-" + p,
    privateSubnetId := "subnet-prv-" + p, securityGroupId := "sg-" + p)
    case Rds => r.(rdsInstanceId := "db-dryrun-" + p,
    rdsEndpoint := "db-dryrun-" + p + ".us-east-1.rds.amazonaws.com:5432",
    rdsPassword := "dryrunpassword")
    case Ec2 => r.(ec2InstanceId := "i-dryrun-" + p, ec2PublicIp := "1.2.3.4")
    case S3 => r.(s3BucketName := "env-forge-dryrun-" + p)
    case Identity =>
      r.(svidExchangePolicyName := PolicyName(r.id),
      spireEntryIds := if cfg.connected then [AppSpiffeId(cfg, r.id), DbProxySpiffeId(cfg, r.id)]
      else ["entry-app-dryrun-" + p, "entry-db-dryrun-" + p])
    case Config => r.(localEnvPath := EnvPath(cfg, r.id))
    case Health => r
    case Registry => r.(status := READY)
  }

  /** The record with the step's group of fields empty. */
  function Blank(step: Step, r: Record): Record {
    match step
    case Vpc => r.(vpcId := "", publicSubnetId := "", privateSubnetId := "", securityGroupId := "")
    case Rds => r.(rdsInstanceId := "", rdsEndpoint := "", rdsPassword := "")
    case Ec2 => r.(ec2InstanceId := "", ec2PublicIp := "")
    case S3 => r.(s3BucketName := "")
    case Identity => r.(spireEntryIds := [], svidExchangePolicyName := "")
    case Config => r.(localEnvPath := "")
    case Health => r
    case Registry => r.(status := "")
  }

  /** The record after a dry-run Compensate of the step: registry marks it destroyed, the others empty their group. */
  function Without(step: Step, r: Record): Record {
    if step == Registry then r.(status := DESTROYED) else Blank(step, r)
  }

  /** Two records that differ, if at all, in the step's own group. */
  predicate AgreeOutside(step: Step, r: Record, s: Record) {
    Blank(step, r) == Blank(step, s)
  }

  /** A group is wholly empty or wholly as a dry-run Execute writes it. */
  predicate GroupCanonical(cfg: Settings, step: Step, r: Record) {
    if step == Registry then true
    else if Marked(step, r) then r == With(cfg, step, r)
    else r == Blank(step, r)
  }

  /** Every group is wholly canonical or wholly empty. */
  ghost predicate Canonical(cfg: Settings, r: Record) {
    forall step: Step :: GroupCanonical(cfg, step, r)
  }

  /** The steps whose effect the record shows. */
  ghost function DoneSet(r: Record): set<Step> {
    set step: Step | step in STEPS && Marked(step, r)
  }

  /** No step has left anything in the record. */
  predicate Fresh(r: Record) {
    r == NewRecord(r.id, r.owner, r.dryRun, r.failAtHealth, r.createdAt).(status := r.status, sagaId := r.sagaId)
  }
}
