/** Ordered runs in either mode, as one trace with late and repeated deliveries: the .env file and config.json always
    agree with the record that names them. */
module Artefacts {
  import opened Records
  import opened Ledgers
  import opened Handlers
  import opened Sessions
  import opened Ownership
  import opened ConfigPhases
  import opened Driver
  import Attempts

  /** Records that render alike. */
  predicate SameRender(cfg: Settings, r: Record, s: Record) {
    EnvFileOf(cfg, r) == EnvFileOf(cfg, s) && r.s3BucketName == s.s3BucketName && r.dryRun == s.dryRun && r.id == s.id
  }

  /** A config Execute at work, seen from the stored record cur: what it has rendered so far is in place. */
  predicate Renders(cfg: Settings, cur: Record, l: Ledger, local: Record, pc: nat) {
    var last := if cur.dryRun then 2 else 3;
    && SameRender(cfg, local, cur)
    && (pc == 0 && Marked(Config, local) ==> Marked(Config, cur))
    && (!cur.dryRun && pc >= 2 ==> ObjectMatches(cfg, l, cur))
    && (pc >= last ==> FileMatches(cfg, l, cur) && local.localEnvPath == EnvPath(cfg, cur.id))
    && (pc > last ==> Marked(Config, cur))
  }

  function Bucket(id: EnvId): Key {
    BucketKey(BucketName(id))
  }

  /** An s3 Execute at work, seen from the record the run started with and the stored one. */
  predicate Buckets(r0: Record, cur: Record, l: Ledger, local: Record, pc: nat) {
    && (Marked(S3, r0) ==> Marked(S3, local) && pc == 0)
    && (pc == 0 && Marked(S3, local) ==> Marked(S3, cur))
    && if cur.dryRun then (pc >= 2 ==> Marked(S3, local)) && (pc >= 3 ==> Marked(S3, cur))
       else (pc >= 2 ==> local.s3BucketName == BucketName(cur.id) && Bucket(cur.id) in l)
            && (2 <= pc <= 4 ==> !Marked(S3, cur)) && (pc >= 5 ==> Marked(S3, cur))
  }

  /** A handler between creating its bucket and storing its record. */
  predicate Building(handler: Handler) {
    handler.step == S3 && handler.stage.Working? && 2 <= handler.stage.pc <= 4
  }

  predicate Work(cfg: Settings, r0: Record, cur: Record, base: Record, l: Ledger, step: Step, current: bool,
                 local: Record, prog: seq<Action>, pc: nat) {
    && local.id == cur.id && local.dryRun == cur.dryRun && prog == ForwardProgram(cfg, step, cur)
    && (current ==> AgreeOutside(step, base, local))
    && (step == Config ==> Renders(cfg, cur, l, local, pc))
    && (step == S3 ==> Buckets(r0, cur, l, local, pc))
  }

  predicate Stands(cfg: Settings, r0: Record, cur: Record, base: Record, l: Ledger, step: Step, current: bool,
                   stage: Stage) {
    match stage
    case Working(local, prog, pc) => Work(cfg, r0, cur, base, l, step, current, local, prog, pc)
    case Replied(answer) => answer == Acked && (step == Config || step == S3) ==> Marked(step, cur)
    case _ => true
  }

  ghost predicate HandlerOk(cfg: Settings, r0: Record, id: EnvId, s: Sys, b: Book, h: Hid)
    requires h in s.handlers && id in s.world.store
  {
    var handler, p := s.handlers[h], Pos(8, s.handlers[h]);
    && h.envId == id && handler.dir == Forward && MaySend(8, s, p)
    && (p > b.m ==> Idle(handler.stage))
    && Stands(cfg, r0, s.world.store[id], b.base, s.world.ledger, handler.step, p == b.m, handler.stage)
  }

  ghost predicate RecordOk(cfg: Settings, w: World, id: EnvId, x: World, b: Book)
    requires id in w.store
  {
    && b.m < 8 && id in x.store && x.store == w.store[id := x.store[id]]
    && var r0, cur := w.store[id], x.store[id];
    && cur.id == id && b.base.id == id && cur.dryRun == r0.dryRun && AgreeOutside(STEPS[b.m], b.base, cur)
    && (b.m <= 5 ==> b.base.localEnvPath == "")
    && (b.m >= 6 ==> Marked(Config, cur))
    && (b.m >= 4 ==> Marked(S3, cur))
    && (b.m < 7 ==> cur.status == r0.status)
    && (Marked(S3, r0) ==> Marked(S3, cur))
    && (Marked(S3, cur) && !cur.dryRun ==> Marked(S3, r0) || Bucket(id) in x.ledger)
    && (Marked(Config, cur) ==> Matches(cfg, x, cur))
  }

  ghost predicate OneBuilder(s: Sys) {
    forall g, h :: g in s.handlers && h in s.handlers && Building(s.handlers[g]) && Building(s.handlers[h]) ==> g == h
  }

  ghost predicate Follows(cfg: Settings, w: World, id: EnvId, s: Sys, b: Book)
    requires id in w.store
  {
    && RecordOk(cfg, w, id, s.world, b)
    && (forall h :: h in s.handlers ==> HandlerOk(cfg, w.store[id], id, s, b, h))
    && (w.store[id].dryRun || OneBuilder(s))
  }

  // ----- what one action does to file and bucket -----

  /** Files and buckets stay. */
  ghost predicate Untouched(l: Ledger, l': Ledger) {
    forall k: Key :: k.FileKey? || k.BucketKey? ==> (k in l <==> k in l') && (k in l && k in l' ==> l[k] == l'[k])
  }

  lemma OtherOps(cfg: Settings, a: Action, w: World, r: Record, value: string)
    requires !Belongs(S3, a) && !Belongs(Config, a)
    ensures Elsewhere(Intent(cfg, a, r, w.ledger, value))
  {
    hide Intent, Elsewhere;
    if Belongs(Vpc, a) { VpcOps(cfg, a, w, r, value); } else { InstanceOps(cfg, a, w, r, value); }
  }

  /** The request is not about a file or a bucket. */
  predicate Elsewhere(op: Op) {
    match op
    case Query => true
    case Reject => true
    case _ => !op.key.FileKey? && !op.key.BucketKey?
  }

  lemma VpcOps(cfg: Settings, a: Action, w: World, r: Record, value: string)
    requires Belongs(Vpc, a)
    ensures Elsewhere(Intent(cfg, a, r, w.ledger, value))
  {
    hide DbName, BucketName, PolicyName, EnvPath, Short, PolicyOf, Joined, Uses;
  }

  lemma InstanceOps(cfg: Settings, a: Action, w: World, r: Record, value: string)
    requires Belongs(Rds, a) || Belongs(Ec2, a) || Belongs(Identity, a)
    ensures Elsewhere(Intent(cfg, a, r, w.ledger, value))
  {
    hide DbName, BucketName, PolicyName, EnvPath, Short, PolicyOf, Joined, Uses;
  }

  lemma OtherAttempt(cfg: Settings, a: Action, w: World, r: Record, o: Outcome)
    requires !Belongs(S3, a) && !Belongs(Config, a)
    ensures Untouched(w.ledger, Attempt(cfg, a, w, r, o).world.ledger)
  {
    hide Intent, Legal, Updated, Short;
    if Applied(o) { OtherOps(cfg, a, w, r, o.value); }
  }

  /** Steps other than s3 and config, and what happens inside any handler, leave files and buckets alone. */
  lemma OthersUntouched(cfg: Settings, step: Step, a: Action, w: World, r: Record, o: Outcome)
    requires Inner(a) || (!Belongs(S3, a) && !Belongs(Config, a))
    ensures Untouched(w.ledger, Perform(cfg, step, a, w, r, o).world.ledger)
  {
    hide Attempt, With, Without, AlreadyDone, AsksCloud, Skips, Updated, PurgeSome, Apply;
    if Inner(a) || a == NameEntries {
      assert Perform(cfg, step, a, w, r, o).world.ledger == w.ledger;
    } else {
      hide Perform;
      PerformIs(cfg, step, a, w, r, o);
      OtherAttempt(cfg, a, w, r, o);
    }
  }

  /** What the s3 and config actions of forward programs do to a bucket and the file. */
  lemma S3ActionIs(cfg: Settings, a: Action, w: World, r: Record, o: Outcome)
    requires a == CreateBucket || a == EnableVersioning || a == PutPlaceholder
    ensures
      var v := Perform(cfg, S3, a, w, r, o);
      && (v.Stop? ==> v.answer == Refused)
      && w.ledger.Keys <= v.world.ledger.Keys
      && (forall k: Key :: k in w.ledger && k.FileKey? ==> v.world.ledger[k] == w.ledger[k])
      && (v.Go? ==> v.local == if a == CreateBucket then r.(s3BucketName := BucketName(r.id)) else r)
      && (a == CreateBucket && v.Go? ==> Bucket(r.id) !in w.ledger && Bucket(r.id) in v.world.ledger)
      && (a != PutPlaceholder ==> forall k: Key :: k in w.ledger && k.BucketKey? ==>
                                                     SameVersions(w.ledger[k], v.world.ledger[k]))
  {
    hide With, Without, BucketName;
  }

  predicate SameVersions(i: Item, j: Item) {
    i.BucketItem? ==> j.BucketItem? && i.versions == j.versions
  }

  lemma VersionsMatch(cfg: Settings, l: Ledger, l': Ledger, r: Record)
    requires l.Keys <= l'.Keys
    requires forall k: Key :: k in l && k.FileKey? ==> l'[k] == l[k]
    ensures FileMatches(cfg, l, r) ==> FileMatches(cfg, l', r)
    ensures (forall k: Key :: k in l && k.BucketKey? ==> SameVersions(l[k], l'[k])) ==>
              (ObjectMatches(cfg, l, r) ==> ObjectMatches(cfg, l', r))
  {
    hide EnvPath, EnvFileOf, ConfigJsonOf;
  }

  lemma UntouchedMatch(cfg: Settings, l: Ledger, l': Ledger, r: Record)
    requires Untouched(l, l')
    ensures FileMatches(cfg, l, r) == FileMatches(cfg, l', r) && ObjectMatches(cfg, l, r) == ObjectMatches(cfg, l', r)
    ensures Bucket(r.id) in l <==> Bucket(r.id) in l'
  {
    hide EnvPath, EnvFileOf, ConfigJsonOf, BucketName;
  }

  lemma AlikeMatch(cfg: Settings, r: Record, s: Record, l: Ledger)
    requires SameRender(cfg, r, s)
    ensures FileMatches(cfg, l, r) == FileMatches(cfg, l, s) && ObjectMatches(cfg, l, r) == ObjectMatches(cfg, l, s)
  {
  }

  // ----- one action of one handler -----

  /** What is in place for the record cur stays in place; only an s3 Execute still building may bury config.json. */
  predicate Gains(cfg: Settings, cur: Record, l: Ledger, l': Ledger, buries: bool) {
    && (FileMatches(cfg, l, cur) ==> FileMatches(cfg, l', cur))
    && (Bucket(cur.id) in l ==> Bucket(cur.id) in l')
    && (!buries ==> (ObjectMatches(cfg, l, cur) ==> ObjectMatches(cfg, l', cur)))
  }

  /** The action is the placeholder upload of a handler that is building. */
  predicate Buries(cur: Record, step: Step, prog: seq<Action>, pc: nat) {
    step == S3 && !cur.dryRun && pc == 3
  }

  ghost predicate Onward(cfg: Settings, r0: Record, cur: Record, base: Record, w: World, step: Step, current: bool,
                         prog: seq<Action>, pc: nat, v: Verdict) {
    && Gains(cfg, cur, w.ledger, v.world.ledger, Buries(cur, step, prog, pc))
    && match v
       case Go(w', local') => Work(cfg, r0, cur, base, w'.ledger, step, current, local', prog, pc + 1)
       case Stop(w', answer) => Stands(cfg, r0, cur, base, w'.ledger, step, current, Replied(answer))
  }

  lemma ForwardBelongsTo(cfg: Settings, step: Step, r: Record, pc: nat)
    requires pc < |ForwardProgram(cfg, step, r)|
    ensures Belongs(step, ForwardProgram(cfg, step, r)[pc])
  {
    hide ForwardProgram, Belongs;
    ForwardBelongs(cfg, step, r);
  }

  /** Steps other than s3 and config. */
  lemma OtherOnward(cfg: Settings, r0: Record, cur: Record, base: Record, w: World, step: Step, current: bool,
                    local: Record, prog: seq<Action>, pc: nat, o: Outcome)
    requires Work(cfg, r0, cur, base, w.ledger, step, current, local, prog, pc) && pc < |prog| && step != S3
             && step != Config
    ensures Onward(cfg, r0, cur, base, w, step, current, prog, pc, Perform(cfg, step, prog[pc], w, local, o))
  {
    hide Perform, ForwardProgram, Blank, FileMatches, ObjectMatches;
    ForwardBelongsTo(cfg, step, cur, pc);
    NotTheirs(step, prog[pc]);
    OthersUntouched(cfg, step, prog[pc], w, local, o);
    UntouchedMatch(cfg, w.ledger, Perform(cfg, step, prog[pc], w, local, o).world.ledger, cur);
    PerformOwnGroup(cfg, step, prog[pc], w, local, o);
    KeepsMode(cfg, step, prog[pc], w, local, o);
  }

  lemma NotTheirs(step: Step, a: Action)
    requires Belongs(step, a) && step != S3 && step != Config
    ensures Inner(a) || (!Belongs(S3, a) && !Belongs(Config, a))
  {
  }

  lemma KeepsMode(cfg: Settings, step: Step, a: Action, w: World, r: Record, o: Outcome)
    requires Belongs(step, a)
    ensures var v := Perform(cfg, step, a, w, r, o); v.Go? ==> v.local.dryRun == r.dryRun && v.local.id == r.id
  {
    hide Perform;
    PerformOwnGroup(cfg, step, a, w, r, o);
    var v := Perform(cfg, step, a, w, r, o);
    if v.Go? { OutsideMode(step, r, v.local); }
  }

  lemma OutsideMode(step: Step, r: Record, s: Record)
    requires AgreeOutside(step, r, s)
    ensures r.dryRun == s.dryRun && r.id == s.id
  {
  }

  lemma InnerIs(cfg: Settings, step: Step, a: Action, w: World, r: Record, o: Outcome)
    requires Inner(a) && a != Put && a != Refuse && a != Probe && (step == S3 || step == Config)
    ensures
      var v := Perform(cfg, step, a, w, r, o);
      && v.world == w
      && (a == Check ==> v == if Marked(step, r) then Stop(w, Acked) else Go(w, r))
      && (a == Fill ==> v == Go(w, With(cfg, step, r)))
  {
    hide With, Without;
  }

  lemma S3Onward(cfg: Settings, r0: Record, cur: Record, base: Record, w: World, current: bool, local: Record,
                 prog: seq<Action>, pc: nat, o: Outcome)
    requires Work(cfg, r0, cur, base, w.ledger, S3, current, local, prog, pc) && pc < |prog| && prog[pc] != Put
    requires Marked(S3, cur) && !cur.dryRun ==> Marked(S3, r0) || Bucket(cur.id) in w.ledger
    ensures Onward(cfg, r0, cur, base, w, S3, current, prog, pc, Perform(cfg, S3, prog[pc], w, local, o))
    ensures !cur.dryRun && pc == 1 && Perform(cfg, S3, prog[pc], w, local, o).Go? ==> Bucket(cur.id) !in w.ledger
  {
    hide Perform, Blank, FileMatches, ObjectMatches, BucketName, With;
    var v := Perform(cfg, S3, prog[pc], w, local, o);
    ForwardBelongsTo(cfg, S3, cur, pc);
    PerformOwnGroup(cfg, S3, prog[pc], w, local, o);
    KeepsMode(cfg, S3, prog[pc], w, local, o);
    if Inner(prog[pc]) {
      InnerIs(cfg, S3, prog[pc], w, local, o);
      DryBucket(cfg, local);
    } else {
      S3ActionIs(cfg, prog[pc], w, local, o);
      VersionsMatch(cfg, w.ledger, v.world.ledger, cur);
    }
  }

  lemma DryBucket(cfg: Settings, r: Record)
    ensures Marked(S3, With(cfg, S3, r))
  {
  }

  lemma ConfigOnward(cfg: Settings, r0: Record, cur: Record, base: Record, w: World, current: bool, local: Record,
                     prog: seq<Action>, pc: nat, o: Outcome)
    requires Work(cfg, r0, cur, base, w.ledger, Config, current, local, prog, pc) && pc < |prog| && prog[pc] != Put
    ensures Onward(cfg, r0, cur, base, w, Config, current, prog, pc, Perform(cfg, Config, prog[pc], w, local, o))
  {
    hide Perform, FileMatches, ObjectMatches, BucketName, EnvPath;
    var v := Perform(cfg, Config, prog[pc], w, local, o);
    AlikeMatch(cfg, local, cur, w.ledger);
    AlikeMatch(cfg, local, cur, v.world.ledger);
    match prog[pc] {
      case Check => InnerIs(cfg, Config, Check, w, local, o);
      case UploadConfig =>
        UploadRenders(cfg, w, local, local, o);
        BucketsStay(cfg, UploadConfig, w, local, o);
      case WriteEnvFile =>
        WriteFileRenders(cfg, w, local, local, o);
        BucketsStay(cfg, WriteEnvFile, w, local, o);
        PathRenders(cfg, local);
    }
  }

  lemma PathRenders(cfg: Settings, r: Record)
    ensures
      var s := r.(localEnvPath := EnvPath(cfg, r.id));
      EnvFileOf(cfg, s) == EnvFileOf(cfg, r) && Blank(Config, s) == Blank(Config, r)
  {
  }

  lemma BucketsStay(cfg: Settings, a: Action, w: World, r: Record, o: Outcome)
    requires a == UploadConfig || a == WriteEnvFile
    ensures w.ledger.Keys <= Perform(cfg, Config, a, w, r, o).world.ledger.Keys
  {
    hide With, Without, EnvPath, EnvFileOf, ConfigJsonOf;
  }

  lemma WorkOnward(cfg: Settings, r0: Record, cur: Record, base: Record, w: World, step: Step, current: bool,
                   local: Record, prog: seq<Action>, pc: nat, o: Outcome)
    requires Work(cfg, r0, cur, base, w.ledger, step, current, local, prog, pc) && pc < |prog| && prog[pc] != Put
    requires Marked(S3, cur) && !cur.dryRun ==> Marked(S3, r0) || Bucket(cur.id) in w.ledger
    ensures Onward(cfg, r0, cur, base, w, step, current, prog, pc, Perform(cfg, step, prog[pc], w, local, o))
    ensures step == S3 && !cur.dryRun && pc == 1 && Perform(cfg, step, prog[pc], w, local, o).Go? ==>
              Bucket(cur.id) !in w.ledger
  {
    hide Onward, Perform, Work, BucketName;
    match step {
      case S3 => S3Onward(cfg, r0, cur, base, w, current, local, prog, pc, o);
      case Config => ConfigOnward(cfg, r0, cur, base, w, current, local, prog, pc, o);
      case _ => OtherOnward(cfg, r0, cur, base, w, step, current, local, prog, pc, o);
    }
  }

  /** What is in place stays in place for every other handler; where it may be buried, no config Execute is at work. */
  lemma StandsOn(cfg: Settings, r0: Record, cur: Record, base: Record, l: Ledger, l': Ledger, step: Step, current: bool,
                 stage: Stage, buries: bool)
    requires Stands(cfg, r0, cur, base, l, step, current, stage) && Gains(cfg, cur, l, l', buries)
    requires buries && step == Config ==> !stage.Working?
    ensures Stands(cfg, r0, cur, base, l', step, current, stage)
  {
    hide FileMatches, ObjectMatches, ForwardProgram, Blank, EnvFileOf, BucketName, EnvPath;
  }

  // ----- an applied Put -----

  /** The record that a current handler of this step may store in place of cur. */
  ghost predicate Succeeds(cfg: Settings, r0: Record, cur: Record, base: Record, m: nat, l: Ledger, next: Record)
    requires m < 8
  {
    && AgreeOutside(STEPS[m], base, next) && next.id == cur.id && next.dryRun == cur.dryRun
    && (m == 3 ==> Marked(S3, next) && (!cur.dryRun ==> Bucket(cur.id) in l))
    && (m == 5 ==> SameRender(cfg, next, cur) && FileMatches(cfg, l, cur) && next.localEnvPath == EnvPath(cfg, cur.id)
                   && (!cur.dryRun ==> ObjectMatches(cfg, l, cur)))
  }

  lemma PutSucceeds(cfg: Settings, r0: Record, cur: Record, base: Record, l: Ledger, m: nat, local: Record,
                    prog: seq<Action>, pc: nat)
    requires m < 8 && Work(cfg, r0, cur, base, l, STEPS[m], true, local, prog, pc) && pc < |prog| && prog[pc] == Put
    ensures Succeeds(cfg, r0, cur, base, m, l, local)
    ensures m == 3 ==> pc + 1 == |prog| && pc == if cur.dryRun then 2 else 4
    ensures m == 5 ==> pc == if cur.dryRun then 2 else 3
  {
    hide FileMatches, ObjectMatches, Blank, EnvFileOf, BucketName, EnvPath;
    BucketNamed(cur.id);
  }

  lemma BucketNamed(id: EnvId)
    ensures BucketName(id) != ""
  {
  }

  /** How the stored record changes: in one group, and from config on without any change to what is rendered. */
  lemma SuccessorFacts(cfg: Settings, r0: Record, cur: Record, base: Record, m: nat, l: Ledger, next: Record)
    requires m < 8 && Succeeds(cfg, r0, cur, base, m, l, next) && AgreeOutside(STEPS[m], base, cur)
    ensures m != 3 ==> Marked(S3, next) == Marked(S3, cur)
    ensures m != 5 ==> next.localEnvPath == cur.localEnvPath == base.localEnvPath
    ensures m != 7 ==> next.status == cur.status
    ensures m >= 5 ==> SameRender(cfg, next, cur)
    ensures m == 5 ==> Marked(Config, next)
  {
    hide FileMatches, ObjectMatches, EnvPath;
    PathNamed(cfg, cur.id);
  }

  lemma PathNamed(cfg: Settings, id: EnvId)
    ensures EnvPath(cfg, id) != ""
  {
  }

  lemma ProgramByMode(cfg: Settings, step: Step, r: Record, s: Record)
    requires r.dryRun == s.dryRun
    ensures ForwardProgram(cfg, step, r) == ForwardProgram(cfg, step, s)
  {
  }

  /** Other handlers stand with the new record as they did with the old. */
  lemma StandsWithNext(cfg: Settings, r0: Record, cur: Record, base: Record, m: nat, l: Ledger, next: Record,
                       step: Step, current: bool, stage: Stage)
    requires m < 8 && Succeeds(cfg, r0, cur, base, m, l, next) && AgreeOutside(STEPS[m], base, cur)
    requires Stands(cfg, r0, cur, base, l, step, current, stage)
    requires m < 5 && step == Config ==> !stage.Working? && stage != Replied(Acked)
    requires m == 3 && step == S3 && !cur.dryRun && stage.Working? ==> !(2 <= stage.pc <= 4)
    ensures Stands(cfg, r0, next, base, l, step, current, stage)
  {
    hide FileMatches, ObjectMatches, Blank, EnvPath, BucketName, ForwardProgram, EnvFileOf;
    SuccessorFacts(cfg, r0, cur, base, m, l, next);
    ProgramByMode(cfg, step, cur, next);
    if m >= 5 { AlikeMatch(cfg, next, cur, l); }
  }

  lemma RecordSucceeds(cfg: Settings, w: World, id: EnvId, x: World, b: Book, next: Record)
    requires id in w.store && RecordOk(cfg, w, id, x, b)
             && Succeeds(cfg, w.store[id], x.store[id], b.base, b.m, x.ledger, next)
    ensures RecordOk(cfg, w, id, x.(store := x.store[id := next]), b)
  {
    hide FileMatches, ObjectMatches, Blank, EnvPath, BucketName, EnvFileOf;
    var cur := x.store[id];
    SuccessorFacts(cfg, w.store[id], cur, b.base, b.m, x.ledger, next);
    if b.m >= 5 { AlikeMatch(cfg, next, cur, x.ledger); }
  }

  lemma PutStands(cfg: Settings, r0: Record, cur: Record, base: Record, m: nat, l: Ledger, local: Record,
                  prog: seq<Action>, pc: nat)
    requires m < 8 && Work(cfg, r0, cur, base, l, STEPS[m], true, local, prog, pc) && pc < |prog| && prog[pc] == Put
    ensures Work(cfg, r0, local, base, l, STEPS[m], true, local, prog, pc + 1)
  {
    hide FileMatches, ObjectMatches, Blank, EnvPath, EnvFileOf, BucketName;
    BucketNamed(cur.id);
    PathNamed(cfg, cur.id);
    PutSucceeds(cfg, r0, cur, base, l, m, local, prog, pc);
    ProgramByMode(cfg, STEPS[m], cur, local);
    if m == 5 { AlikeMatch(cfg, local, cur, l); }
  }

  // ----- one event -----

  ghost predicate Start(w: World, id: EnvId) {
    id in w.store && w.store[id].id == id && w.store[id].localEnvPath == "" && w.store[id].status != READY
  }

  lemma Facts(cfg: Settings, w: World, id: EnvId, s: Sys, b: Book, h: Hid)
    requires id in w.store && Follows(cfg, w, id, s, b) && h in s.handlers
    ensures h.envId == id && id in s.world.store && HandlerOk(cfg, w.store[id], id, s, b, h)
    ensures 0 <= Pos(8, s.handlers[h]) < 8 && STEPS[Pos(8, s.handlers[h])] == s.handlers[h].step
    ensures s.handlers[h].step == Config <==> Pos(8, s.handlers[h]) == 5
    ensures s.handlers[h].step == S3 <==> Pos(8, s.handlers[h]) == 3
  {
    hide Stands, AckedAt, Blank, Matches;
    PositionIsPlace(8, s.handlers[h].step, s.handlers[h].dir);
  }

  /** An applied Put of the current request. */
  lemma PutFollows(cfg: Settings, w: World, id: EnvId, s: Sys, b: Book, h: Hid, o: Outcome)
    requires id in w.store && Follows(cfg, w, id, s, b) && Stores(s, Act(h, o)) && Allowed(8, id, s, Act(h, o), b)
    ensures Follows(cfg, w, id, Advance(cfg, s, Act(h, o)), Noted(8, id, s, Act(h, o), b))
  {
    hide HandlerOk, RecordOk, OneBuilder, Allowed, Advance, Succeeds;
    var ev, r0 := Act(h, o), w.store[id];
    var s' := Advance(cfg, s, ev);
    PutFacts(cfg, w, id, s, b, h, o);
    PutMoves(cfg, s, h, o);
    RecordSucceeds(cfg, w, id, s.world, b, s.handlers[h].stage.local);
    forall g | g in s'.handlers ensures HandlerOk(cfg, r0, id, s', b, g) {
      if g == h { OwnAfterPut(cfg, w, id, s, b, h, o); } else { OtherAfterPut(cfg, w, id, s, b, h, o, g); }
    }
    if !r0.dryRun { PutBuilders(cfg, s, h, o); }
  }

  /** What an applied Put of a current handler finds. */
  lemma PutFacts(cfg: Settings, w: World, id: EnvId, s: Sys, b: Book, h: Hid, o: Outcome)
    requires id in w.store && Follows(cfg, w, id, s, b) && Stores(s, Act(h, o)) && Allowed(8, id, s, Act(h, o), b)
    ensures id in s.world.store && h.envId == id && b.m < 8 && Pos(8, s.handlers[h]) == b.m
            && STEPS[b.m] == s.handlers[h].step
    ensures
      var stage, cur := s.handlers[h].stage, s.world.store[id];
      && Work(cfg, w.store[id], cur, b.base, s.world.ledger, STEPS[b.m], true, stage.local, stage.prog, stage.pc)
      && Succeeds(cfg, w.store[id], cur, b.base, b.m, s.world.ledger, stage.local) && stage.local.id == id == cur.id
      && (b.m == 3 ==> stage.pc + 1 == |stage.prog| && stage.pc == if cur.dryRun then 2 else 4)
    ensures (s.handlers[h].step == S3 <==> b.m == 3) && s.world.store[id].dryRun == w.store[id].dryRun
    ensures Noted(8, id, s, Act(h, o), b) == b
  {
    hide Stands, Succeeds, MaySend, ForwardProgram, Work, OneBuilder, Matches, Bucket, Blank;
    Facts(cfg, w, id, s, b, h);
    WorkOf(cfg, w, id, s, b, h);
    var stage, cur := s.handlers[h].stage, s.world.store[id];
    PutSucceeds(cfg, w.store[id], cur, b.base, s.world.ledger, b.m, stage.local, stage.prog, stage.pc);
    LocalId(cfg, w.store[id], cur, b.base, s.world.ledger, b.m, stage.local);
  }

  lemma PutMoves(cfg: Settings, s: Sys, h: Hid, o: Outcome)
    requires Stores(s, Act(h, o))
    ensures
      var handler, stage := s.handlers[h], s.handlers[h].stage;
      Advance(cfg, s, Act(h, o))
      == Sys(s.world.(store := s.world.store[stage.local.id := stage.local]),
             s.handlers[h := handler.(stage := if o.Ok? then Working(stage.local, stage.prog, stage.pc + 1)
             else Replied(Refused))])
  {
    hide Perform;
    Attempts.PutIs(cfg, s.handlers[h].step, s.world, s.handlers[h].stage.local, o);
  }

  lemma OwnAfterPut(cfg: Settings, w: World, id: EnvId, s: Sys, b: Book, h: Hid, o: Outcome)
    requires id in w.store && Follows(cfg, w, id, s, b) && Stores(s, Act(h, o)) && Allowed(8, id, s, Act(h, o), b)
    ensures
      var s' := Advance(cfg, s, Act(h, o));
      h in s'.handlers && id in s'.world.store && HandlerOk(cfg, w.store[id], id, s', b, h)
  {
    hide Stands, Succeeds, MaySend, Work, RecordOk, OneBuilder, Advance, Allowed;
    PutFacts(cfg, w, id, s, b, h, o);
    var handler, stage, cur, r0 := s.handlers[h], s.handlers[h].stage, s.world.store[id], w.store[id];
    PutMoves(cfg, s, h, o);
    Facts(cfg, w, id, s, b, h);
    PutStands(cfg, r0, cur, b.base, b.m, s.world.ledger, stage.local, stage.prog, stage.pc);
    WorkStands(cfg, r0, stage.local, b.base, s.world.ledger, handler.step, stage.local, stage.prog, stage.pc + 1);
    MaySendLasts(cfg, 8, s, Act(h, o), Pos(8, handler));
  }

  /** The s3 program ends with its Put: whoever stores its record has finished building. */
  lemma PutBuilders(cfg: Settings, s: Sys, h: Hid, o: Outcome)
    requires OneBuilder(s) && Stores(s, Act(h, o)) && (s.handlers[h].step == S3 ==> s.handlers[h].stage.pc == 4)
    ensures OneBuilder(Advance(cfg, s, Act(h, o)))
  {
    hide Advance;
    PutMoves(cfg, s, h, o);
    var s' := Advance(cfg, s, Act(h, o));
    forall g | g in s'.handlers && Building(s'.handlers[g])
      ensures g in s.handlers && s'.handlers[g] == s.handlers[g]
    {
    }
  }

  lemma LocalId(cfg: Settings, r0: Record, cur: Record, base: Record, l: Ledger, m: nat, next: Record)
    requires m < 8 && Succeeds(cfg, r0, cur, base, m, l, next)
    ensures next.id == cur.id
  {
  }

  lemma WorkOf(cfg: Settings, w: World, id: EnvId, s: Sys, b: Book, h: Hid)
    requires id in w.store && Follows(cfg, w, id, s, b) && h in s.handlers && s.handlers[h].stage.Working?
    ensures id in s.world.store
    ensures
      var stage := s.handlers[h].stage;
      Work(cfg, w.store[id], s.world.store[id], b.base, s.world.ledger, s.handlers[h].step,
           Pos(8, s.handlers[h]) == b.m, stage.local, stage.prog, stage.pc)
  {
    hide Work, MaySend, Blank, Matches;
    assert HandlerOk(cfg, w.store[id], id, s, b, h);
  }

  lemma WorkStands(cfg: Settings, r0: Record, cur: Record, base: Record, l: Ledger, step: Step, local: Record,
                   prog: seq<Action>, pc: nat)
    requires Work(cfg, r0, cur, base, l, step, true, local, prog, pc)
    ensures Stands(cfg, r0, cur, base, l, step, true, Working(local, prog, pc))
    ensures Stands(cfg, r0, cur, base, l, step, true, Replied(Refused))
  {
    hide Work;
  }

  lemma OtherAfterPut(cfg: Settings, w: World, id: EnvId, s: Sys, b: Book, h: Hid, o: Outcome, g: Hid)
    requires id in w.store && Follows(cfg, w, id, s, b) && Stores(s, Act(h, o)) && Allowed(8, id, s, Act(h, o), b)
    requires g in s.handlers && g != h && Pos(8, s.handlers[h]) == b.m
    requires Succeeds(cfg, w.store[id], s.world.store[id], b.base, b.m, s.world.ledger, s.handlers[h].stage.local)
    requires s.handlers[h].stage.local.id == id
    requires b.m == 3 ==> s.handlers[h].stage.pc == if s.world.store[id].dryRun then 2 else 4
    ensures
      var s' := Advance(cfg, s, Act(h, o));
      g in s'.handlers && id in s'.world.store && HandlerOk(cfg, w.store[id], id, s', b, g)
  {
    hide Perform, Succeeds, MaySend, ForwardProgram, Work, Program;
    Facts(cfg, w, id, s, b, g);
    Facts(cfg, w, id, s, b, h);
    var cur, handler := s.world.store[id], s.handlers[g];
    StoreChangesByPut(cfg, s, Act(h, o));
    OtherHandlers(cfg, s, Act(h, o), g);
    MaySendLasts(cfg, 8, s, Act(h, o), Pos(8, handler));
    if b.m == 3 && handler.step == S3 && !cur.dryRun && handler.stage.Working? { assert Building(s.handlers[h]); }
    StandsWithNext(cfg, w.store[id], cur, b.base, b.m, s.world.ledger, s.handlers[h].stage.local, handler.step,
                   Pos(8, handler) == b.m, handler.stage);
  }

  /** Any other action of a handler at work. */
  lemma WorkFollows(cfg: Settings, w: World, id: EnvId, s: Sys, b: Book, h: Hid, o: Outcome)
    requires id in w.store && Follows(cfg, w, id, s, b) && h in s.handlers && !Stores(s, Act(h, o))
    requires s.handlers[h].stage.Working? && s.handlers[h].stage.pc < |s.handlers[h].stage.prog|
    ensures Follows(cfg, w, id, Advance(cfg, s, Act(h, o)), b)
  {
    hide Perform, Work, MaySend, ForwardProgram, Blank, Program;
    Facts(cfg, w, id, s, b, h);
    WorkOf(cfg, w, id, s, b, h);
    var ev, handler, cur, r0 := Act(h, o), s.handlers[h], s.world.store[id], w.store[id];
    var local, prog, pc := handler.stage.local, handler.stage.prog, handler.stage.pc;
    var s' := Advance(cfg, s, ev);
    StoreChangesByPut(cfg, s, ev);
    MaySendLasts(cfg, 8, s, ev, Pos(8, handler));
    if prog[pc] == Put {
      Attempts.PutIs(cfg, handler.step, s.world, local, o);
      SameFollows(cfg, w, id, s, b, h, o);
    } else {
      WorkOnward(cfg, r0, cur, b.base, s.world, handler.step, Pos(8, handler) == b.m, local, prog, pc, o);
      OnwardFollows(cfg, w, id, s, b, h, o);
    }
  }

  /** Nothing but the handler's own stage changes, and it stops. */
  lemma SameFollows(cfg: Settings, w: World, id: EnvId, s: Sys, b: Book, h: Hid, o: Outcome)
    requires id in w.store && Follows(cfg, w, id, s, b) && h in s.handlers
    requires
      var s' := Advance(cfg, s, Act(h, o));
      && s'.world == s.world && h in s'.handlers && s'.handlers[h] == s.handlers[h].(stage := Replied(Refused))
    ensures Follows(cfg, w, id, Advance(cfg, s, Act(h, o)), b)
  {
    hide Perform, Work, MaySend, ForwardProgram, Blank, Program, Tick;
    var s' := Advance(cfg, s, Act(h, o));
    forall g | g in s.handlers ensures g in s'.handlers && HandlerOk(cfg, w.store[id], id, s', b, g) {
      Facts(cfg, w, id, s, b, g);
      OtherHandlers(cfg, s, Act(h, o), g);
      MaySendLasts(cfg, 8, s, Act(h, o), Pos(8, s.handlers[g]));
    }
  }

  lemma OnwardFollows(cfg: Settings, w: World, id: EnvId, s: Sys, b: Book, h: Hid, o: Outcome)
    requires id in w.store && Follows(cfg, w, id, s, b) && h in s.handlers && id in s.world.store
    requires s.handlers[h].stage.Working? && s.handlers[h].stage.pc < |s.handlers[h].stage.prog|
             && s.handlers[h].stage.prog[s.handlers[h].stage.pc] != Put
    requires
      var handler, stage, cur := s.handlers[h], s.handlers[h].stage, s.world.store[id];
      var v := Perform(cfg, handler.step, stage.prog[stage.pc], s.world, stage.local, o);
      && Onward(cfg, w.store[id], cur, b.base, s.world, handler.step, Pos(8, handler) == b.m, stage.prog, stage.pc, v)
      && (handler.step == S3 && !cur.dryRun && stage.pc == 1 && v.Go? ==> Bucket(cur.id) !in s.world.ledger)
    requires Advance(cfg, s, Act(h, o)).world.store == s.world.store
    ensures Follows(cfg, w, id, Advance(cfg, s, Act(h, o)), b)
  {
    hide HandlerOk, Advance, OneBuilder, Perform;
    var r0, s' := w.store[id], Advance(cfg, s, Act(h, o));
    OnwardRecord(cfg, w, id, s, b, h, o);
    var buries := Buries(s.world.store[id], s.handlers[h].step, s.handlers[h].stage.prog, s.handlers[h].stage.pc);
    forall g | g in s'.handlers ensures HandlerOk(cfg, r0, id, s', b, g) {
      if g == h { OnwardOwn(cfg, w, id, s, b, h, o); } else { OnwardOther(cfg, w, id, s, b, h, o, g, buries); }
    }
    if !r0.dryRun { BuilderStaysOne(cfg, w, id, s, b, h, o); }
  }

  /** The record stays in order, and what may be buried is buried before config begins. */
  lemma OnwardRecord(cfg: Settings, w: World, id: EnvId, s: Sys, b: Book, h: Hid, o: Outcome)
    requires id in w.store && Follows(cfg, w, id, s, b) && h in s.handlers && id in s.world.store
    requires s.handlers[h].stage.Working? && s.handlers[h].stage.pc < |s.handlers[h].stage.prog|
    requires
      var handler, stage, cur := s.handlers[h], s.handlers[h].stage, s.world.store[id];
      Onward(cfg, w.store[id], cur, b.base, s.world, handler.step, Pos(8, handler) == b.m, stage.prog, stage.pc,
             Perform(cfg, handler.step, stage.prog[stage.pc], s.world, stage.local, o))
    requires Advance(cfg, s, Act(h, o)).world.store == s.world.store
    ensures
      var s', handler, stage, cur := Advance(cfg, s, Act(h, o)), s.handlers[h], s.handlers[h].stage, s.world.store[id];
      var buries := Buries(cur, handler.step, stage.prog, stage.pc);
      && RecordOk(cfg, w, id, s'.world, b) && (buries ==> b.m < 5)
      && Gains(cfg, cur, s.world.ledger, s'.world.ledger, buries)
      && s'.handlers.Keys == s.handlers.Keys
  {
    hide Perform, MaySend, ForwardProgram, Blank, Program, FileMatches, ObjectMatches, BucketName, EnvPath, OneBuilder,
      HandlerOk, Work;
    var handler, cur := s.handlers[h], s.world.store[id];
    Facts(cfg, w, id, s, b, h);
    if Buries(cur, handler.step, handler.stage.prog, handler.stage.pc) { BuildersComeEarly(cfg, w, id, s, b, h); }
  }

  lemma OnwardOwn(cfg: Settings, w: World, id: EnvId, s: Sys, b: Book, h: Hid, o: Outcome)
    requires id in w.store && Follows(cfg, w, id, s, b) && h in s.handlers && id in s.world.store
    requires s.handlers[h].stage.Working? && s.handlers[h].stage.pc < |s.handlers[h].stage.prog|
    requires
      var handler, stage, cur := s.handlers[h], s.handlers[h].stage, s.world.store[id];
      Onward(cfg, w.store[id], cur, b.base, s.world, handler.step, Pos(8, handler) == b.m, stage.prog, stage.pc,
             Perform(cfg, handler.step, stage.prog[stage.pc], s.world, stage.local, o))
    requires Advance(cfg, s, Act(h, o)).world.store == s.world.store
    ensures
      var s' := Advance(cfg, s, Act(h, o));
      h in s'.handlers && id in s'.world.store && HandlerOk(cfg, w.store[id], id, s', b, h)
  {
    hide Perform, MaySend, ForwardProgram, Program, Gains, Work, OneBuilder, RecordOk, Matches;
    Facts(cfg, w, id, s, b, h);
    MaySendLasts(cfg, 8, s, Act(h, o), Pos(8, s.handlers[h]));
  }

  lemma OnwardOther(cfg: Settings, w: World, id: EnvId, s: Sys, b: Book, h: Hid, o: Outcome, g: Hid, buries: bool)
    requires id in w.store && Follows(cfg, w, id, s, b) && h in s.handlers && id in s.world.store && g in s.handlers
             && g != h
    requires Gains(cfg, s.world.store[id], s.world.ledger, Advance(cfg, s, Act(h, o)).world.ledger, buries)
    requires buries ==> b.m < 5
    requires Advance(cfg, s, Act(h, o)).world.store == s.world.store
    ensures var s' := Advance(cfg, s, Act(h, o)); g in s'.handlers && HandlerOk(cfg, w.store[id], id, s', b, g)
  {
    hide Perform, MaySend, Program, Gains, Advance, OneBuilder, RecordOk, Stands;
    var ev, cur, handler := Act(h, o), s.world.store[id], s.handlers[g];
    Facts(cfg, w, id, s, b, g);
    OtherHandlers(cfg, s, ev, g);
    MaySendLasts(cfg, 8, s, ev, Pos(8, handler));
    StandsOn(cfg, w.store[id], cur, b.base, s.world.ledger, Advance(cfg, s, ev).world.ledger, handler.step,
             Pos(8, handler) == b.m, handler.stage, buries);
  }

  /** While a bucket is being built, config has not begun and the record is unmarked. */
  lemma BuildersComeEarly(cfg: Settings, w: World, id: EnvId, s: Sys, b: Book, h: Hid)
    requires id in w.store && Follows(cfg, w, id, s, b) && h in s.handlers && Building(s.handlers[h])
             && !w.store[id].dryRun
    ensures b.m < 4 && id in s.world.store && !Marked(Config, s.world.store[id])
  {
    hide MaySend, ForwardProgram, Matches, Bucket;
    Facts(cfg, w, id, s, b, h);
    WorkOf(cfg, w, id, s, b, h);
  }

  lemma BuilderStaysOne(cfg: Settings, w: World, id: EnvId, s: Sys, b: Book, h: Hid, o: Outcome)
    requires id in w.store && Follows(cfg, w, id, s, b) && h in s.handlers && id in s.world.store && !w.store[id].dryRun
    requires s.handlers[h].stage.Working? && s.handlers[h].stage.pc < |s.handlers[h].stage.prog|
    requires
      var handler, stage := s.handlers[h], s.handlers[h].stage;
      handler.step == S3 && stage.pc == 1
      && Perform(cfg, handler.step, stage.prog[stage.pc], s.world, stage.local, o).Go? ==>
        Bucket(s.world.store[id].id) !in s.world.ledger
    ensures OneBuilder(Advance(cfg, s, Act(h, o)))
  {
    hide Perform, MaySend, ForwardProgram, Blank, Program, Matches, BucketName, EnvPath;
    var s' := Advance(cfg, s, Act(h, o));
    forall g | g in s.handlers && g != h
               && Building(s.handlers[g]) ensures Bucket(s.world.store[id].id) in s.world.ledger
                                                  && s'.handlers[g] == s.handlers[g] {
      Facts(cfg, w, id, s, b, g);
      WorkOf(cfg, w, id, s, b, g);
    }
    Facts(cfg, w, id, s, b, h);
  }

  /** A handler of the current or an earlier request reads the record, or ends its program, or was idle. */
  lemma QuietFollows(cfg: Settings, w: World, id: EnvId, s: Sys, b: Book, h: Hid, o: Outcome)
    requires id in w.store && Follows(cfg, w, id, s, b) && h in s.handlers && !Stores(s, Act(h, o))
    requires s.handlers[h].stage.Working? ==> s.handlers[h].stage.pc >= |s.handlers[h].stage.prog|
    requires Loads(s, id, Act(h, o)) ==> Pos(8, s.handlers[h]) <= b.m
    ensures Follows(cfg, w, id, Advance(cfg, s, Act(h, o)), b)
  {
    hide Perform, Work, MaySend, Blank, FileMatches, ObjectMatches, EnvPath, BucketName, Program;
    var ev, s' := Act(h, o), Advance(cfg, s, Act(h, o));
    forall g | g in s.handlers && g != h ensures g in s'.handlers && HandlerOk(cfg, w.store[id], id, s', b, g) {
      Facts(cfg, w, id, s, b, g);
      OtherHandlers(cfg, s, ev, g);
      MaySendLasts(cfg, 8, s, ev, Pos(8, s.handlers[g]));
    }
    Facts(cfg, w, id, s, b, h);
    MaySendLasts(cfg, 8, s, ev, Pos(8, s.handlers[h]));
    QuietStage(cfg, w, id, s, b, h, o);
  }

  lemma QuietStage(cfg: Settings, w: World, id: EnvId, s: Sys, b: Book, h: Hid, o: Outcome)
    requires id in w.store && Follows(cfg, w, id, s, b) && h in s.handlers && !Stores(s, Act(h, o))
    requires s.handlers[h].stage.Working? ==> s.handlers[h].stage.pc >= |s.handlers[h].stage.prog|
    requires Loads(s, id, Act(h, o)) ==> Pos(8, s.handlers[h]) <= b.m
    ensures
      var s' := Advance(cfg, s, Act(h, o));
      var handler, p := s.handlers[h], Pos(8, s.handlers[h]);
      && s'.world == s.world && h in s'.handlers && id in s.world.store
      && s'.handlers[h].step == handler.step && s'.handlers[h].dir == handler.dir
      && (p > b.m ==> Idle(s'.handlers[h].stage))
      && !Building(s'.handlers[h])
      && Stands(cfg, w.store[id], s.world.store[id], b.base, s.world.ledger, handler.step, p == b.m,
                s'.handlers[h].stage)
  {
    hide Perform, MaySend, Blank, FileMatches, ObjectMatches, EnvPath, BucketName, EnvFileOf;
    Facts(cfg, w, id, s, b, h);
    var handler := s.handlers[h];
    if handler.stage.Working? {
      WorkOf(cfg, w, id, s, b, h);
      EndOfProgram(cfg, handler.step, s.world.store[id]);
    }
  }

  lemma EndOfProgram(cfg: Settings, step: Step, r: Record)
    ensures step == Config ==> |ForwardProgram(cfg, step, r)| == if r.dryRun then 3 else 4
    ensures step == S3 ==> |ForwardProgram(cfg, step, r)| == if r.dryRun then 3 else 5
  {
  }

  /** A handler of the next request reads the record. */
  lemma OpeningFollows(cfg: Settings, w: World, id: EnvId, s: Sys, b: Book, h: Hid, o: Outcome)
    requires Start(w, id) && Follows(cfg, w, id, s, b) && Loads(s, id, Act(h, o)) && Pos(8, s.handlers[h]) > b.m
    ensures Follows(cfg, w, id, Advance(cfg, s, Act(h, o)), Noted(8, id, s, Act(h, o), b))
  {
    hide Perform, Work, MaySend, FileMatches, ObjectMatches, EnvPath, BucketName, Program;
    var ev, s' := Act(h, o), Advance(cfg, s, Act(h, o));
    var b' := Noted(8, id, s, ev, b);
    Facts(cfg, w, id, s, b, h);
    MaySendLasts(cfg, 8, s, ev, Pos(8, s.handlers[h]));
    ComesNext(cfg, w, id, s, b, h);
    OpensOk(cfg, w, id, s.world, b, b');
    LoadedStands(cfg, w, id, s, b, s.handlers[h].step);
    forall g | g in s.handlers && g != h ensures g in s'.handlers && HandlerOk(cfg, w.store[id], id, s', b', g) {
      OpeningLeaves(cfg, w, id, s, b, h, o, g);
    }
  }

  lemma OpeningLeaves(cfg: Settings, w: World, id: EnvId, s: Sys, b: Book, h: Hid, o: Outcome, g: Hid)
    requires Start(w, id) && Follows(cfg, w, id, s, b) && Loads(s, id, Act(h, o)) && Pos(8, s.handlers[h]) > b.m
    requires g in s.handlers && g != h
    ensures
      var s' := Advance(cfg, s, Act(h, o));
      g in s'.handlers && HandlerOk(cfg, w.store[id], id, s', Noted(8, id, s, Act(h, o), b), g)
  {
    hide Perform, Work, MaySend, FileMatches, ObjectMatches, EnvPath, BucketName, Program;
    var ev, b', handler := Act(h, o), Noted(8, id, s, Act(h, o), b), s.handlers[g];
    Facts(cfg, w, id, s, b, g);
    OtherHandlers(cfg, s, ev, g);
    MaySendLasts(cfg, 8, s, ev, Pos(8, handler));
    ComesNext(cfg, w, id, s, b, h);
    PastStands(cfg, w.store[id], s.world.store[id], b.base, b'.base, s.world.ledger, handler.step,
               Pos(8, handler) == b.m, handler.stage);
    if Idle(handler.stage) {
      IdleStands(cfg, w.store[id], s.world.store[id], b'.base, s.world.ledger, handler.step, handler.stage);
    }
  }

  lemma IdleStands(cfg: Settings, r0: Record, cur: Record, base: Record, l: Ledger, step: Step, stage: Stage)
    requires Idle(stage)
    ensures Stands(cfg, r0, cur, base, l, step, true, stage)
  {
  }

  /** A handler of a request that is past keeps standing, whatever the current one is. */
  lemma PastStands(cfg: Settings, r0: Record, cur: Record, base: Record, next: Record, l: Ledger, step: Step,
                   current: bool, stage: Stage)
    requires Stands(cfg, r0, cur, base, l, step, current, stage)
    ensures Stands(cfg, r0, cur, next, l, step, false, stage)
  {
    hide FileMatches, ObjectMatches, Blank, EnvPath, BucketName, ForwardProgram, Renders, Buckets;
  }

  lemma LoadedStands(cfg: Settings, w: World, id: EnvId, s: Sys, b: Book, step: Step)
    requires id in w.store && Follows(cfg, w, id, s, b)
    ensures
      var cur := s.world.store[id];
      Stands(cfg, w.store[id], cur, cur, s.world.ledger, step, true, Working(cur, Program(cfg, step, Forward, cur), 0))
  {
    hide FileMatches, ObjectMatches, EnvPath, BucketName, ForwardProgram, HandlerOk, EnvFileOf;
  }

  /** The request that reads the record next follows the current one, which is acknowledged. */
  lemma ComesNext(cfg: Settings, w: World, id: EnvId, s: Sys, b: Book, h: Hid)
    requires id in w.store && Follows(cfg, w, id, s, b) && h in s.handlers && Pos(8, s.handlers[h]) > b.m
    ensures Pos(8, s.handlers[h]) == b.m + 1 && id in s.world.store
    ensures b.m == 3 ==> Marked(S3, s.world.store[id])
    ensures b.m == 5 ==> Marked(Config, s.world.store[id])
  {
    hide Work, Blank, Matches;
    Facts(cfg, w, id, s, b, h);
    var p := Pos(8, s.handlers[h]);
    var g: Hid :| g in s.handlers && Pos(8, s.handlers[g]) == p - 1 && s.handlers[g].stage == Replied(Acked);
    Facts(cfg, w, id, s, b, g);
  }

  lemma OpensOk(cfg: Settings, w: World, id: EnvId, x: World, b: Book, b': Book)
    requires Start(w, id) && RecordOk(cfg, w, id, x, b) && b'.m == b.m + 1 < 8 && b'.base == x.store[id]
    requires b.m == 3 ==> Marked(S3, x.store[id])
    requires b.m == 5 ==> Marked(Config, x.store[id])
    ensures RecordOk(cfg, w, id, x, b')
  {
    hide Matches, Bucket;
    if b.m < 5 { OutsideConfig(STEPS[b.m], b.base, x.store[id]); }
  }

  lemma OutsideConfig(step: Step, r: Record, s: Record)
    requires AgreeOutside(step, r, s) && step != Config
    ensures r.localEnvPath == s.localEnvPath
  {
  }

  lemma ActFollows(cfg: Settings, w: World, id: EnvId, s: Sys, b: Book, h: Hid, o: Outcome)
    requires Start(w, id) && Follows(cfg, w, id, s, b) && h in s.handlers && Allowed(8, id, s, Act(h, o), b)
    ensures Follows(cfg, w, id, Advance(cfg, s, Act(h, o)), Noted(8, id, s, Act(h, o), b))
  {
    hide Follows, Advance;
    var stage := s.handlers[h].stage;
    if Stores(s, Act(h, o)) {
      PutFollows(cfg, w, id, s, b, h, o);
    } else if Loads(s, id, Act(h, o)) && Pos(8, s.handlers[h]) > b.m {
      OpeningFollows(cfg, w, id, s, b, h, o);
    } else if stage.Working? && stage.pc < |stage.prog| {
      WorkFollows(cfg, w, id, s, b, h, o);
    } else {
      QuietFollows(cfg, w, id, s, b, h, o);
    }
  }

  lemma ElseFollows(cfg: Settings, w: World, id: EnvId, s: Sys, b: Book, ev: Event)
    requires id in w.store && Follows(cfg, w, id, s, b) && Allowed(8, id, s, ev, b) && (ev.Act? ==> ev.h !in s.handlers)
    ensures Follows(cfg, w, id, Advance(cfg, s, ev), Noted(8, id, s, ev, b))
  {
    hide HandlerOk, RecordOk, OneBuilder, Allowed, Advance, Noted;
    var s' := Advance(cfg, s, ev);
    InStore(cfg, w, id, s, b);
    ElseKeeps(cfg, id, s, ev, b);
    forall g | g in s'.handlers ensures HandlerOk(cfg, w.store[id], id, s', b, g) {
      ElseHandler(cfg, w, id, s, b, ev, g);
    }
    if !w.store[id].dryRun { ElseBuilders(cfg, s, ev); }
  }

  lemma ElseKeeps(cfg: Settings, id: EnvId, s: Sys, ev: Event, b: Book)
    requires ev.Act? ==> ev.h !in s.handlers
    ensures Advance(cfg, s, ev).world == s.world && Noted(8, id, s, ev, b) == b
  {
  }

  lemma ElseHandler(cfg: Settings, w: World, id: EnvId, s: Sys, b: Book, ev: Event, g: Hid)
    requires id in w.store && Follows(cfg, w, id, s, b) && Allowed(8, id, s, ev, b) && (ev.Act? ==> ev.h !in s.handlers)
    requires g in Advance(cfg, s, ev).handlers
    ensures id in Advance(cfg, s, ev).world.store && HandlerOk(cfg, w.store[id], id, Advance(cfg, s, ev), b, g)
  {
    hide Work, MaySend, RecordOk, OneBuilder;
    var s' := Advance(cfg, s, ev);
    InStore(cfg, w, id, s, b);
    if g in s.handlers {
      assert HandlerOk(cfg, w.store[id], id, s, b, g);
      OtherHandlers(cfg, s, ev, g);
    } else {
      ForwardOnly(8, s'.handlers[g].step, s'.handlers[g].dir, s);
    }
    MaySendLasts(cfg, 8, s, ev, Pos(8, s'.handlers[g]));
  }

  lemma ElseBuilders(cfg: Settings, s: Sys, ev: Event)
    requires OneBuilder(s) && (ev.Act? ==> ev.h !in s.handlers)
    ensures OneBuilder(Advance(cfg, s, ev))
  {
    hide Perform, Program;
    var s' := Advance(cfg, s, ev);
    forall g | g in s'.handlers && Building(s'.handlers[g])
      ensures g in s.handlers && s'.handlers[g] == s.handlers[g]
    {
    }
  }

  lemma InStore(cfg: Settings, w: World, id: EnvId, s: Sys, b: Book)
    requires id in w.store && Follows(cfg, w, id, s, b)
    ensures id in s.world.store
  {
    hide HandlerOk, OneBuilder;
  }

  lemma ForwardOnly(k: nat, step: Step, dir: Direction, s: Sys)
    ensures k == 8 && MaySend(k, s, Position(k, step, dir)) ==> dir == Forward
  {
    hide AckedAt;
  }

  lemma {:induction false} RunFollows(cfg: Settings, w: World, id: EnvId, s: Sys, evs: seq<Event>, b: Book)
    requires Start(w, id) && Follows(cfg, w, id, s, b) && Conducted(cfg, 8, id, s, evs, b)
    ensures Follows(cfg, w, id, Run(cfg, s, evs), Balance(cfg, 8, id, s, evs, b))
    decreases |evs|
  {
    if evs == [] {
    } else {
      hide Follows, Allowed, Advance, Noted;
      var ev := evs[0];
      if ev.Act? && ev.h in s.handlers {
        ActFollows(cfg, w, id, s, b, ev.h, ev.o);
      } else {
        ElseFollows(cfg, w, id, s, b, ev);
      }
      RunFollows(cfg, w, id, Advance(cfg, s, ev), evs[1..], Noted(8, id, s, ev, b));
    }
  }

  lemma StartFollows(cfg: Settings, w: World, id: EnvId)
    requires Start(w, id)
    ensures Follows(cfg, w, id, Sys(w, map[]), Opened(w, id))
  {
    hide Matches, HandlerOk, Bucket, Blank;
    assert w.store == w.store[id := w.store[id]];
  }

  /** Artefacts match the record, in either mode: at every moment of an ordered run, late and repeated deliveries
      included, a record that names a file, and so one that is ready, is matched: the file at that path and in real mode
      the newest config.json carry the record's own ID, endpoint, password and bucket, the workers' addresses and, in
      config.json, the trust domain. */
  lemma ArtefactsMatchRecord(cfg: Settings, w: World, id: EnvId, evs: seq<Event>)
    requires Start(w, id) && Driven(cfg, 8, w, id, evs)
    ensures
      var x := Run(cfg, Sys(w, map[]), evs).world;
      && id in x.store
      && var r := x.store[id];
      r.localEnvPath != "" || r.status == "ready" ==>
        && Matches(cfg, x, r)
        && FileKey(r.localEnvPath) in x.ledger && x.ledger[FileKey(r.localEnvPath)].FileItem?
        && r.localEnvPath == cfg.envDir + "/env-" + id[..8] + ".env"
        && Carries(cfg, x.ledger[FileKey(r.localEnvPath)].file, r)
        && (!r.dryRun ==>
              var k := BucketKey(r.s3BucketName);
              && k in x.ledger && x.ledger[k].BucketItem? && |x.ledger[k].versions| > 0
              && x.ledger[k].versions[0].Json? && Carries(cfg, x.ledger[k].versions[0].body.env, r)
              && x.ledger[k].versions[0].body.trustDomain == cfg.trustDomain)
  {
    hide Conducted, Run, Matches, HandlerOk, OneBuilder, Carries, Bucket, Balance;
    StartFollows(cfg, w, id);
    RunFollows(cfg, w, id, Sys(w, map[]), evs, Opened(w, id));
    var x := Run(cfg, Sys(w, map[]), evs).world;
    MatchingCarries(cfg, x, x.store[id]);
  }
}
