/** Runs driven the way saga-conductor drives them, as one trace of deliveries that may overlap, repeat, come late, fail
    or die: forward requests in order, each first sent when its predecessor is acknowledged; after a step is given up,
    compensations of the steps before it, newest first. */
module Driver {
  import opened Records
  import opened Ledgers
  import opened Handlers
  import opened Sessions

  function Index(step: Step): (i: nat)
    ensures i < |STEPS| && STEPS[i] == step
  {
    match step
    case Vpc => 0
    case Rds => 1
    case Ec2 => 2
    case S3 => 3
    case Identity => 4
    case Config => 5
    case Health => 6
    case Registry => 7
  }

  /** k is the step that is given up, 8 if none is: forward 0 to k, then compensations of k - 1 down to 0. */
  function Length(k: nat): nat {
    if k >= 8 then 8 else 2 * k + 1
  }

  function RequestAt(k: nat, p: nat): (Step, Direction)
    requires k <= 8 && p < Length(k)
  {
    if p <= k then (STEPS[p], Forward) else (STEPS[2 * k - p], Compensate)
  }

  /** Where a request stands in the plan, or -1. */
  function Position(k: nat, step: Step, dir: Direction): int {
    if dir == Forward then
      if Index(step) <= k then Index(step) else -1
    else
    if k < 8 && Index(step) < k then 2 * k - Index(step) else -1
  }

  lemma PositionIsPlace(k: nat, step: Step, dir: Direction)
    requires k <= 8
    ensures Position(k, step, dir) < Length(k)
    ensures Position(k, step, dir) >= 0 ==> RequestAt(k, Position(k, step, dir)) == (step, dir)
  {
  }

  function Pos(k: nat, handler: Handler): int {
    Position(k, handler.step, handler.dir)
  }

  ghost predicate AckedAt(k: nat, s: Sys, p: int) {
    exists h: Hid :: h in s.handlers && Pos(k, s.handlers[h]) == p && s.handlers[h].stage == Replied(Acked)
  }

  /** A stage that has not touched the record. */
  predicate Idle(stage: Stage) {
    !stage.Working? && stage != Replied(Acked)
  }

  /** A request is first sent when its predecessor is acknowledged; the first compensation when step k is given up. */
  ghost predicate MaySend(k: nat, s: Sys, p: int) {
    0 <= p < Length(k) && (p == 0 || AckedAt(k, s, p - 1) || (p == k + 1 && (k == 0 || AckedAt(k, s, k - 1))))
  }

  /** Kept along a trace: the latest request that has read the record, the record it found, and whether a Put of the
      step that is given up has been applied. */
  datatype Book = Book(m: nat, base: Record, landed: bool)

  predicate Loads(s: Sys, id: EnvId, ev: Event) {
    ev.Act? && ev.h in s.handlers && s.handlers[ev.h].stage.Loading? && ev.o.Ok? && id in s.world.store
  }

  function Noted(k: nat, id: EnvId, s: Sys, ev: Event, b: Book): Book {
    if Loads(s, id, ev) && Pos(k, s.handlers[ev.h]) > b.m
    then Book(Pos(k, s.handlers[ev.h]), s.world.store[id], b.landed)
    else if Stores(s, ev) && Pos(k, s.handlers[ev.h]) == k then b.(landed := true)
      else b
  }

  /** Late deliveries are allowed, late writes are not: no Put of a request is applied once a later one has read the
      record. */
  ghost predicate Allowed(k: nat, id: EnvId, s: Sys, ev: Event, b: Book) {
    match ev
    case Arrive(h, step, dir) => h.envId == id && MaySend(k, s, Position(k, step, dir))
    case Act(h, o) => Stores(s, ev) ==> Pos(k, s.handlers[h]) >= b.m
    case Crash(h) => true
  }

  ghost predicate Conducted(cfg: Settings, k: nat, id: EnvId, s: Sys, evs: seq<Event>, b: Book)
    decreases |evs|
  {
    evs == [] || (Allowed(k, id, s, evs[0], b)
                  && Conducted(cfg, k, id, Advance(cfg, s, evs[0]), evs[1..], Noted(k, id, s, evs[0], b)))
  }

  /** The book at the end of a trace. */
  function Balance(cfg: Settings, k: nat, id: EnvId, s: Sys, evs: seq<Event>, b: Book): Book
    decreases |evs|
  {
    if evs == [] then b else Balance(cfg, k, id, Advance(cfg, s, evs[0]), evs[1..], Noted(k, id, s, evs[0], b))
  }

  function Opened(w: World, id: EnvId): Book
    requires id in w.store
  {
    Book(0, w.store[id], false)
  }

  /** A run of the conductor from the start. */
  ghost predicate Driven(cfg: Settings, k: nat, w: World, id: EnvId, evs: seq<Event>) {
    id in w.store && Conducted(cfg, k, id, Sys(w, map[]), evs, Opened(w, id))
  }

  // ----- what lasts -----

  lemma AckLasts(cfg: Settings, k: nat, s: Sys, ev: Event, p: int)
    requires AckedAt(k, s, p)
    ensures AckedAt(k, Advance(cfg, s, ev), p)
  {
    hide Perform, Program;
    var h: Hid :| h in s.handlers && Pos(k, s.handlers[h]) == p && s.handlers[h].stage == Replied(Acked);
    assert Advance(cfg, s, ev).handlers[h] == s.handlers[h];
  }

  lemma MaySendLasts(cfg: Settings, k: nat, s: Sys, ev: Event, p: int)
    requires MaySend(k, s, p)
    ensures MaySend(k, Advance(cfg, s, ev), p)
  {
    hide Advance, AckedAt;
    if AckedAt(k, s, p - 1) { AckLasts(cfg, k, s, ev, p - 1); }
    if AckedAt(k, s, k - 1) { AckLasts(cfg, k, s, ev, k - 1); }
  }

  /** A handler's event leaves the store alone, unless it is an applied Put, which writes the handler's copy. */
  lemma OtherHandlers(cfg: Settings, s: Sys, ev: Event, h: Hid)
    requires h in s.handlers
    ensures
      var s' := Advance(cfg, s, ev);
      && h in s'.handlers && s'.handlers[h].step == s.handlers[h].step && s'.handlers[h].dir == s.handlers[h].dir
      && (ev.h != h ==> s'.handlers[h] == s.handlers[h])
  {
    hide Perform, Program;
  }
}
