/** The worker's surroundings as objects: the cloud behind the SDK clients, and the trace that ties
    a step's statements, one by one, to the actions of its program. */
module Services {
  import opened Records
  import opened Ledgers
  import opened Handlers
  import opened Stores

  /** AWS, svid-exchange and the local file system. */
  class Cloud {
    var ledger: Ledger
    var issued: map<Key, string>

    ghost function Alone(): World
      reads this
    {
      World(map[], ledger, issued)
    }

    /** One request. It has an effect if it is carried out and the service accepts it, and succeeds if it is also
        answered. */
    method Send(op: Op, tag: string, o: Outcome) returns (ok: bool)
      modifies this
      ensures ok == (o.Ok? && Legal(old(Alone()), op))
      ensures Alone() == if (o.Ok? || o.Lost?) && Legal(old(Alone()), op) then Apply(old(Alone()), op, tag)
                         else old(Alone())
    {
      if o.Fail? || o.Partial? { return false; }
      if !Legal(World(map[], ledger, issued), op) { return false; }
      var after := Apply(World(map[], ledger, issued), op, tag);
      ledger, issued := after.ledger, after.issued;
      return o.Ok?;
    }
  }

  /** The world the handlers' machine speaks of. */
  ghost function Sight(store: Store, cloud: Cloud): World
    reads store, cloud
  {
    World(RecordsOf(store.rows), cloud.ledger, cloud.issued)
  }

  function Value(o: Outcome): string {
    if o.Ok? || o.Lost? then o.value else ""
  }

  /** The actions that are one request to the cloud. */
  predicate IsRequest(a: Action) {
    match a
    case Check | Fill | Wipe | Put | Refuse | Probe | NameEntries | PurgeVersions => false
    case _ => true
  }

  /** What a run is to end in, however far it has come. */
  datatype Course = Course(cfg: Settings, step: Step, prog: seq<Action>, script: seq<Outcome>, end: (World, Answer))

  /** At action pc, with world w and local record r, the run still ends where it should. */
  ghost predicate On(c: Course, pc: nat, w: World, r: Record) {
    pc <= |c.prog| && |c.prog| + 1 < |c.script| && Carry(c.cfg, c.step, w, r, c.prog, pc, c.script) == c.end
  }

  /** The world a step has to leave, and whether it has to succeed. */
  ghost predicate Ends(c: Course, w: World, ok: bool) {
    c.end == (w, if ok then Acked else Refused)
  }

  lemma LegalAlone(w: World, op: Op)
    ensures Legal(World(map[], w.ledger, w.issued), op) == Legal(w, op)
    ensures
      var x := Apply(World(map[], w.ledger, w.issued), op, "");
      Apply(w, op, "").store == w.store && x.ledger == Apply(w, op, "").ledger
  {
  }

  lemma ApplyAlone(w: World, op: Op, tag: string)
    ensures Apply(w, op, tag)
         == World(w.store, Apply(World(map[], w.ledger, w.issued), op, tag).ledger,
                  Apply(World(map[], w.ledger, w.issued), op, tag).issued)
  {
  }

  lemma PerformRequest(c: Course, a: Action, w: World, r: Record, o: Outcome)
    requires IsRequest(a) && !Skips(a, r)
    ensures Perform(c.cfg, c.step, a, w, r, o) == Attempt(c.cfg, a, w, r, o)
  {
    hide Skips, Attempt;
  }

  lemma OneAction(c: Course, pc: nat, w: World, r: Record)
    requires On(c, pc, w, r) && pc < |c.prog|
    ensures match Perform(c.cfg, c.step, c.prog[pc], w, r, c.script[pc + 1])
            case Go(w', r') => On(c, pc + 1, w', r')
            case Stop(w', answer) => c.end == (w', answer)
  {
    hide Perform;
  }

  /** A request sent at the right moment keeps the run on course, or ends it as it should end. */
  lemma SendStep(c: Course, pc: nat, w: World, r: Record, op: Op)
    requires On(c, pc, w, r) && pc < |c.prog| && IsRequest(c.prog[pc]) && !Skips(c.prog[pc], r)
    requires op == Intent(c.cfg, c.prog[pc], r, w.ledger, Value(c.script[pc + 1]))
    ensures
      var o := c.script[pc + 1];
      var done := (o.Ok? || o.Lost?) && Legal(World(map[], w.ledger, w.issued), op);
      var alone := Apply(World(map[], w.ledger, w.issued), op, Short(r.id));
      var w' := if done then World(w.store, alone.ledger, alone.issued) else w;
      if done && o.Ok? then On(c, pc + 1, w', Updated(c.cfg, c.prog[pc], r, w.ledger, Value(o)))
      else Ends(c, w', false)
  {
    hide Perform, Intent, Legal, Apply, Updated, Skips;
    OneAction(c, pc, w, r);
    PerformRequest(c, c.prog[pc], w, r, c.script[pc + 1]);
    LegalAlone(w, op);
    ApplyAlone(w, op, Short(r.id));
  }

  lemma SkipStep(c: Course, pc: nat, w: World, r: Record)
    requires On(c, pc, w, r) && pc < |c.prog| && IsRequest(c.prog[pc]) && Skips(c.prog[pc], r)
    ensures On(c, pc + 1, w, r)
  {
    hide Attempt, Skips;
    OneAction(c, pc, w, r);
  }

  lemma PutStep(c: Course, pc: nat, w: World, r: Record)
    requires On(c, pc, w, r) && pc < |c.prog| && c.prog[pc] == Put
    ensures
      var o := c.script[pc + 1];
      var w' := if o.Ok? || o.Lost? then w.(store := w.store[r.id := r]) else w;
      if o.Ok? then On(c, pc + 1, w', r) else Ends(c, w', false)
  {
    OneAction(c, pc, w, r);
  }

  /** Assignments in the handler's own copy. */
  lemma LocalStep(c: Course, pc: nat, w: World, r: Record)
    requires On(c, pc, w, r) && pc < |c.prog| && c.prog[pc] in {Fill, Wipe, NameEntries}
    ensures On(c, pc + 1, w,
               if c.prog[pc] == Fill then With(c.cfg, c.step, r)
               else if c.prog[pc] == Wipe then Records.Without(c.step, r)
               else r.(spireEntryIds := [AppSpiffeId(c.cfg, r.id), DbProxySpiffeId(c.cfg, r.id)]))
  {
    hide With, Records.Without, AppSpiffeId, DbProxySpiffeId;
    OneAction(c, pc, w, r);
  }

  lemma EndStep(c: Course, w: World, r: Record)
    requires On(c, |c.prog|, w, r)
    ensures Ends(c, w, true)
  {
  }

  lemma RefuseStep(c: Course, pc: nat, w: World, r: Record)
    requires On(c, pc, w, r) && pc < |c.prog| && c.prog[pc] == Refuse
    ensures Ends(c, w, false)
  {
    OneAction(c, pc, w, r);
  }

  /** The course of a program from action pc on. */
  ghost function CourseOf(cfg: Settings, step: Step, prog: seq<Action>, pc: nat, w: World, r: Record,
                          script: seq<Outcome>): (c: Course)
    requires pc <= |prog| && |prog| + 1 < |script|
    ensures On(c, pc, w, r) && c.cfg == cfg && c.step == step && c.prog == prog && c.script == script
  {
    Course(cfg, step, prog, script, Carry(cfg, step, w, r, prog, pc, script))
  }

  /** Execute's contract: it does what the forward program does after its check. */
  ghost function ExecuteCourse(cfg: Settings, step: Step, w: World, r: Record, script: seq<Outcome>): Course
    requires |script| >= 11
  {
    CourseOf(cfg, step, ForwardProgram(cfg, step, r), 1, w, r, script)
  }

  ghost function CompensateCourse(cfg: Settings, step: Step, w: World, r: Record, script: seq<Outcome>): Course
    requires |script| >= 11
  {
    CourseOf(cfg, step, CompensateProgram(cfg, step, r), 0, w, r, script)
  }

  // ----- statements of a step, kept on course -----

  /** Sends the request of action pc, which is a, for a course that knows the record as r. */
  method AskAs(ghost c: Course, ghost pc: nat, ghost a: Action, ghost r: Record, tag: string, store: Store,
               cloud: Cloud, op: Op, o: Outcome) returns (ok: bool)
    requires On(c, pc, Sight(store, cloud), r) && pc < |c.prog| && c.prog[pc] == a && o == c.script[pc + 1]
             && tag == Short(r.id)
    requires IsRequest(a) && !Skips(a, r)
    requires op == Intent(c.cfg, a, r, cloud.ledger, Value(o))
    modifies cloud
    ensures ok ==> o.Ok? && On(c, pc + 1, Sight(store, cloud), Updated(c.cfg, a, r, old(cloud.ledger), Value(o)))
    ensures !ok ==> Ends(c, Sight(store, cloud), false)
  {
    hide Intent, Legal, Apply, Updated, Skips, On, Ends, IsRequest;
    SendStep(c, pc, Sight(store, cloud), r, op);
    ok := cloud.Send(op, tag, o);
  }

  /** The same with the record as it is. */
  method Ask(ghost c: Course, ghost pc: nat, ghost a: Action, env: Environment, store: Store, cloud: Cloud, op: Op,
             o: Outcome) returns (ok: bool)
    requires On(c, pc, Sight(store, cloud), env.Value()) && pc < |c.prog| && c.prog[pc] == a && o == c.script[pc + 1]
    requires IsRequest(a) && !Skips(a, env.Value())
    requires op == Intent(c.cfg, a, env.Value(), cloud.ledger, Value(o))
    modifies cloud
    ensures ok ==> o.Ok? && On(c, pc + 1, Sight(store, cloud),
                               Updated(c.cfg, a, env.Value(), old(cloud.ledger), Value(o)))
    ensures !ok ==> Ends(c, Sight(store, cloud), false)
  {
    hide Intent, Updated, Skips, On, Ends, IsRequest;
    ok := AskAs(c, pc, a, env.Value(), Short(env.id), store, cloud, op, o);
  }

  /** Stores the record, action pc. */
  method Save(ghost c: Course, ghost pc: nat, env: Environment, store: Store, cloud: Cloud, now: nat,
              o: Outcome) returns (ok: bool)
    requires store.Valid() && On(c, pc, Sight(store, cloud), env.Value()) && pc < |c.prog| && c.prog[pc] == Put
             && o == c.script[pc + 1]
    modifies store`rows, env`updatedAt
    ensures store.Valid()
    ensures ok ==> On(c, pc + 1, Sight(store, cloud), env.Value())
    ensures !ok ==> Ends(c, Sight(store, cloud), false)
  {
    hide On, Ends;
    PutStep(c, pc, Sight(store, cloud), env.Value());
    ok := store.Put(env, now, o);
  }

  /** The last Put of a step: its result is the step's. */
  method Finish(ghost c: Course, env: Environment, store: Store, cloud: Cloud, now: nat, o: Outcome) returns (ok: bool)
    requires store.Valid() && c.prog != [] && On(c, |c.prog| - 1, Sight(store, cloud), env.Value())
    requires c.prog[|c.prog| - 1] == Put && o == c.script[|c.prog|]
    modifies store`rows, env`updatedAt
    ensures store.Valid()
    ensures Ends(c, Sight(store, cloud), ok)
  {
    hide On, Ends;
    ok := Save(c, |c.prog| - 1, env, store, cloud, now, o);
    if ok { EndStep(c, Sight(store, cloud), env.Value()); }
  }
}
