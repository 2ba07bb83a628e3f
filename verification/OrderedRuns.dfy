/** Ordered dry-runs: the record and the world follow the steps acknowledged, whatever overlaps, repeats or comes
    late. */
module OrderedRuns {
  import opened Records
  import opened Ledgers
  import opened Handlers
  import opened Sessions
  import opened DryRun
  import opened Convergence
  import opened Groups
  import opened Driver

  /** The record when request m first reads it. */
  function RecordAt(cfg: Settings, k: nat, r: Record, m: nat, landed: bool): Record
    requires k <= 8 && m < Length(k)
  {
    if m <= k then AllWith(cfg, m, r) else Shown(cfg, 2 * k - m + 1, r, STEPS[k], landed)
  }

  ghost predicate HandlerOk(cfg: Settings, k: nat, id: EnvId, s: Sys, b: Book, h: Hid)
    requires h in s.handlers && id in s.world.store && k <= 8 && b.m < Length(k)
  {
    var handler, p := s.handlers[h], Pos(k, s.handlers[h]);
    && h.envId == id && MaySend(k, s, p)
    && (p == b.m ==> Fits(cfg, handler.step, handler.dir, b.base,
                          Stored(cfg, handler.step, handler.dir, b.base, id, s.world), handler.stage))
    && (p > b.m ==> Idle(handler.stage))
  }

  /** Where a run can start: a dry-run row, and for a run that is rolled back nothing recorded yet. */
  ghost predicate Startable(cfg: Settings, k: nat, w: World, id: EnvId) {
    k <= 8 && DryRow(cfg, w, id) && (k < 8 ==> NothingRecorded(w.store[id], 0))
  }

  ghost predicate RecordOk(cfg: Settings, k: nat, w: World, id: EnvId, x: World, b: Book)
    requires Startable(cfg, k, w, id)
  {
    && b.m < Length(k) && b.base == RecordAt(cfg, k, w.store[id], b.m, b.landed)
    && var (step, dir) := RequestAt(k, b.m);
    && Store(cfg, step, dir, b.base, id, x)
    && x.store == w.store[id := x.store[id]]
    && (b.m == k ==> x.store[id] == if b.landed then Goal(cfg, step, dir, b.base) else b.base)
    && (b.m < k ==> !b.landed)
  }

  ghost predicate Follows(cfg: Settings, k: nat, w: World, id: EnvId, s: Sys, b: Book)
    requires Startable(cfg, k, w, id)
  {
    && RecordOk(cfg, k, w, id, s.world, b)
    && (forall h :: h in s.handlers ==> HandlerOk(cfg, k, id, s, b, h))
    && (b.m > 0 ==> exists h: Hid :: h in s.handlers && Pos(k, s.handlers[h]) == b.m)
  }

  lemma RecordAtKeeps(cfg: Settings, k: nat, w: World, id: EnvId, m: nat, landed: bool)
    requires Startable(cfg, k, w, id) && m < Length(k)
    ensures DryRecord(cfg, RecordAt(cfg, k, w.store[id], m, landed))
            && RecordAt(cfg, k, w.store[id], m, landed).id == id
    ensures IdentOf(RecordAt(cfg, k, w.store[id], m, landed)) == IdentOf(w.store[id])
  {
    hide DryRecord, With;
    var r := w.store[id];
    if m <= k {
      AllWithKeeps(cfg, m, r);
    } else {
      AllWithKeeps(cfg, 2 * k - m + 1, r);
      CanonicalGoal(cfg, STEPS[k], Forward, AllWith(cfg, 2 * k - m + 1, r));
    }
  }

  lemma StepAppearsOnce(k: nat, j: nat)
    requires j <= k < |STEPS|
    ensures STEPS[k] !in STEPS[..j]
  {
  }

  /** The goal of one request is what the next one finds. */
  lemma NextRecord(cfg: Settings, k: nat, r: Record, m: nat, landed: bool)
    requires k <= 8 && m + 1 < Length(k) && m != k && (k < 8 ==> NothingRecorded(r, 0))
    ensures
      var (step, dir) := RequestAt(k, m);
      Goal(cfg, step, dir, RecordAt(cfg, k, r, m, landed)) == RecordAt(cfg, k, r, m + 1, landed)
  {
    hide With, Without, NothingRecorded;
    if m > k {
      var j := 2 * k - m + 1;
      StepAppearsOnce(k, j);
      UndoNewest(cfg, j, r, STEPS[k], landed);
    }
  }

  /** A request reads the record for the first time: it finds what the plan says. */
  lemma FindsRecord(cfg: Settings, k: nat, w: World, id: EnvId, s: Sys, b: Book, h: Hid)
    requires Startable(cfg, k, w, id) && Follows(cfg, k, w, id, s, b) && h in s.handlers && Pos(k, s.handlers[h]) > b.m
    ensures s.world.store[id] == RecordAt(cfg, k, w.store[id], Pos(k, s.handlers[h]), b.landed)
    ensures Pos(k, s.handlers[h]) > k || !b.landed
  {
    hide DryRecord, Goal, With, Fits, AckedAt, NothingRecorded;
    var p := Pos(k, s.handlers[h]);
    assert HandlerOk(cfg, k, id, s, b, h);
    if AckedAt(k, s, p - 1) {
      AckedMeansStored(cfg, k, w, id, s, b, p - 1);
      if b.m != k { NextRecord(cfg, k, w.store[id], b.m, b.landed); } else { GivenUp(cfg, k, w.store[id], b.landed); }
    } else {
      assert p == k + 1;
      if b.m == k {
        GivenUp(cfg, k, w.store[id], b.landed);
      } else {
        AckedMeansStored(cfg, k, w, id, s, b, k - 1);
        NextRecord(cfg, k, w.store[id], b.m, false);
        NoStray(cfg, k, w.store[id]);
      }
    }
  }

  lemma GivenUp(cfg: Settings, k: nat, r: Record, landed: bool)
    requires 0 <= k < 8 && k + 1 < Length(k)
    ensures RecordAt(cfg, k, r, k + 1, landed) == if landed then Goal(cfg, STEPS[k], Forward, AllWith(cfg, k, r))
                                                  else AllWith(cfg, k, r)
  {
    hide With, AllWith;
  }

  lemma NoStray(cfg: Settings, k: nat, r: Record)
    requires 0 < k < 8
    ensures RecordAt(cfg, k, r, k + 1, false) == RecordAt(cfg, k, r, k, false)
  {
    hide With, AllWith;
  }

  lemma AckedMeansStored(cfg: Settings, k: nat, w: World, id: EnvId, s: Sys, b: Book, p: int)
    requires Startable(cfg, k, w, id) && Follows(cfg, k, w, id, s, b) && AckedAt(k, s, p) && p >= b.m
    ensures
      var (step, dir) := RequestAt(k, b.m);
      && p == b.m && s.world.store[id] == Goal(cfg, step, dir, b.base)
      && (step == Health && dir == Forward ==> !b.base.failAtHealth)
  {
    hide DryRecord, Goal, With, NothingRecorded;
    var h: Hid :| h in s.handlers && Pos(k, s.handlers[h]) == p && s.handlers[h].stage == Replied(Acked);
    assert HandlerOk(cfg, k, id, s, b, h);
    PositionIsPlace(k, s.handlers[h].step, s.handlers[h].dir);
  }

  // ----- one event -----

  lemma IdleFits(cfg: Settings, step: Step, dir: Direction, base: Record, stored: bool, stage: Stage)
    requires Idle(stage)
    ensures Fits(cfg, step, dir, base, stored, stage)
  {
  }

  /** Handlers that an event is not about stay in order. */
  lemma OthersOk(cfg: Settings, k: nat, id: EnvId, s: Sys, ev: Event, b: Book, b': Book, h: Hid)
    requires k <= 8 && b.m < Length(k) && b'.m < Length(k) && h in s.handlers && id in s.world.store && ev.h != h
    requires HandlerOk(cfg, k, id, s, b, h) && id in Advance(cfg, s, ev).world.store && b'.m >= b.m
    requires
      var (step, dir) := RequestAt(k, b.m);
      b'.m == b.m ==>
        && b'.base == b.base
        && (Stored(cfg, step, dir, b.base, id, s.world) ==>
              Stored(cfg, step, dir, b.base, id, Advance(cfg, s, ev).world))
    ensures h in Advance(cfg, s, ev).handlers && HandlerOk(cfg, k, id, Advance(cfg, s, ev), b', h)
  {
    hide Advance, MaySend, Fits, Goal;
    var s' := Advance(cfg, s, ev);
    var handler := s.handlers[h];
    OtherHandlers(cfg, s, ev, h);
    MaySendLasts(cfg, k, s, ev, Pos(k, handler));
    PositionIsPlace(k, handler.step, handler.dir);
    if Pos(k, handler) == b'.m {
      if b'.m == b.m {
        if Stored(cfg, handler.step, handler.dir, b.base, id, s'.world)
           && !Stored(cfg, handler.step, handler.dir, b.base, id, s.world) {
          StoredFits(cfg, handler.step, handler.dir, b.base, false, handler.stage);
        }
      } else {
        IdleFits(cfg, handler.step, handler.dir, b'.base, Stored(cfg, handler.step, handler.dir, b'.base, id, s'.world),
                 handler.stage);
      }
    }
  }

  /** A handler of the current request acts. */
  lemma CurrentAct(cfg: Settings, k: nat, w: World, id: EnvId, s: Sys, b: Book, h: Hid, o: Outcome)
    requires Startable(cfg, k, w, id) && Follows(cfg, k, w, id, s, b) && h in s.handlers && Pos(k, s.handlers[h]) == b.m
    ensures
      var s' := Advance(cfg, s, Act(h, o));
      var b' := Noted(k, id, s, Act(h, o), b);
      var (step, dir) := RequestAt(k, b.m);
      && RecordOk(cfg, k, w, id, s'.world, b') && b'.m == b.m && b'.base == b.base
      && (Stored(cfg, step, dir, b.base, id, s.world) ==> Stored(cfg, step, dir, b.base, id, s'.world))
      && h in s'.handlers && HandlerOk(cfg, k, id, s', b', h)
  {
    hide DryRecord, Goal, Tick, Works, MaySend, RecordAt, With, NothingRecorded;
    var ev := Act(h, o);
    var handler := s.handlers[h];
    assert HandlerOk(cfg, k, id, s, b, h);
    PositionIsPlace(k, handler.step, handler.dir);
    RecordAtKeeps(cfg, k, w, id, b.m, b.landed);
    TickFits(cfg, handler.step, handler.dir, b.base, id, s.world, handler, o);
    StoreChangesByPut(cfg, s, ev);
    MaySendLasts(cfg, k, s, ev, Pos(k, handler));
    if Stores(s, ev) {
      PutHoldsGoal(cfg, handler.step, handler.dir, b.base, Stored(cfg, handler.step, handler.dir, b.base, id, s.world),
                   handler.stage);
      GoalKeepsId(cfg, handler.step, handler.dir, b.base);
    }
    if b.m <= k { LandedElsewhere(cfg, k, w.store[id], b.m, b.landed); }
  }

  lemma LandedElsewhere(cfg: Settings, k: nat, r: Record, m: nat, landed: bool)
    requires k <= 8 && m < Length(k) && m <= k
    ensures RecordAt(cfg, k, r, m, landed) == RecordAt(cfg, k, r, m, true)
  {
    hide With;
  }

  /** A handler of a later request reads the record: the current request is closed, the next one opened. */
  lemma OpeningAct(cfg: Settings, k: nat, w: World, id: EnvId, s: Sys, b: Book, h: Hid, o: Outcome)
    requires Startable(cfg, k, w, id) && Follows(cfg, k, w, id, s, b) && Loads(s, id, Act(h, o))
             && Pos(k, s.handlers[h]) > b.m
    ensures
      var s' := Advance(cfg, s, Act(h, o));
      var b' := Noted(k, id, s, Act(h, o), b);
      && RecordOk(cfg, k, w, id, s'.world, b') && b'.m > b.m && s'.world == s.world
      && h in s'.handlers && HandlerOk(cfg, k, id, s', b', h) && Pos(k, s'.handlers[h]) == b'.m
  {
    hide DryRecord, Goal, Works, MaySend, With, NothingRecorded, RecordAt;
    var handler := s.handlers[h];
    var p := Pos(k, handler);
    assert HandlerOk(cfg, k, id, s, b, h);
    PositionIsPlace(k, handler.step, handler.dir);
    FindsRecord(cfg, k, w, id, s, b, h);
    RecordAtKeeps(cfg, k, w, id, p, b.landed);
    LoadFits(cfg, handler.step, handler.dir, s.world.store[id], s.world.store[id]);
    MaySendLasts(cfg, k, s, Act(h, o), p);
  }

  /** A handler of an earlier request acts, or one of a later request that does not read the record: the store stays. */
  lemma OtherAct(cfg: Settings, k: nat, w: World, id: EnvId, s: Sys, b: Book, h: Hid, o: Outcome)
    requires Startable(cfg, k, w, id) && Follows(cfg, k, w, id, s, b) && h in s.handlers
             && Allowed(k, id, s, Act(h, o), b)
    requires Pos(k, s.handlers[h]) < b.m || (Pos(k, s.handlers[h]) > b.m && !Loads(s, id, Act(h, o)))
    ensures
      var s' := Advance(cfg, s, Act(h, o));
      && Noted(k, id, s, Act(h, o), b) == b && s'.world.store == s.world.store
      && h in s'.handlers && HandlerOk(cfg, k, id, s', b, h)
  {
    hide DryRecord, Goal, Works, MaySend, Perform, Program;
    assert HandlerOk(cfg, k, id, s, b, h);
    StoreChangesByPut(cfg, s, Act(h, o));
    OtherHandlers(cfg, s, Act(h, o), h);
    MaySendLasts(cfg, k, s, Act(h, o), Pos(k, s.handlers[h]));
  }

  lemma ActFollows(cfg: Settings, k: nat, w: World, id: EnvId, s: Sys, b: Book, h: Hid, o: Outcome)
    requires Startable(cfg, k, w, id) && Follows(cfg, k, w, id, s, b) && h in s.handlers
             && Allowed(k, id, s, Act(h, o), b)
    ensures Follows(cfg, k, w, id, Advance(cfg, s, Act(h, o)), Noted(k, id, s, Act(h, o), b))
  {
    hide DryRow, HandlerOk, Goal, Tick, Stores, RecordAt, NothingRecorded;
    var ev := Act(h, o);
    var s', b' := Advance(cfg, s, ev), Noted(k, id, s, ev, b);
    var p := Pos(k, s.handlers[h]);
    if p == b.m {
      CurrentAct(cfg, k, w, id, s, b, h, o);
    } else if p > b.m && Loads(s, id, ev) {
      OpeningAct(cfg, k, w, id, s, b, h, o);
    } else {
      OtherAct(cfg, k, w, id, s, b, h, o);
    }
    forall g | g in s.handlers && g != h ensures HandlerOk(cfg, k, id, s', b', g) {
      OthersOk(cfg, k, id, s, ev, b, b', g);
    }
    if g: Hid :| g in s.handlers && Pos(k, s.handlers[g]) == b.m { OtherHandlers(cfg, s, ev, g); }
  }

  lemma ElseFollows(cfg: Settings, k: nat, w: World, id: EnvId, s: Sys, b: Book, ev: Event)
    requires Startable(cfg, k, w, id) && Follows(cfg, k, w, id, s, b) && Allowed(k, id, s, ev, b)
    requires ev.Act? ==> ev.h !in s.handlers
    ensures Follows(cfg, k, w, id, Advance(cfg, s, ev), Noted(k, id, s, ev, b))
  {
    hide DryRow, Goal, RecordAt, Works, AckedAt, MaySend, HandlerOk, NothingRecorded;
    var s' := Advance(cfg, s, ev);
    forall g | g in s.handlers && g != ev.h ensures HandlerOk(cfg, k, id, s', b, g) {
      OthersOk(cfg, k, id, s, ev, b, b, g);
    }
    if ev.h in s'.handlers { SameOk(cfg, k, w, id, s, b, ev); }
    if h: Hid :| h in s.handlers && Pos(k, s.handlers[h]) == b.m { OtherHandlers(cfg, s, ev, h); }
  }

  /** A delivery arrives, or a handler dies. */
  lemma SameOk(cfg: Settings, k: nat, w: World, id: EnvId, s: Sys, b: Book, ev: Event)
    requires Startable(cfg, k, w, id) && Follows(cfg, k, w, id, s, b) && Allowed(k, id, s, ev, b) && !ev.Act?
    requires ev.h in Advance(cfg, s, ev).handlers
    ensures HandlerOk(cfg, k, id, Advance(cfg, s, ev), b, ev.h)
  {
    hide DryRecord, Goal, Works, MaySend;
    var s' := Advance(cfg, s, ev);
    if ev.h in s.handlers { assert HandlerOk(cfg, k, id, s, b, ev.h); }
    MaySendLasts(cfg, k, s, ev, Pos(k, s'.handlers[ev.h]));
    PositionIsPlace(k, s'.handlers[ev.h].step, s'.handlers[ev.h].dir);
  }

  lemma {:induction false} RunFollows(cfg: Settings, k: nat, w: World, id: EnvId, s: Sys, evs: seq<Event>, b: Book)
    requires Startable(cfg, k, w, id) && Follows(cfg, k, w, id, s, b) && Conducted(cfg, k, id, s, evs, b)
    ensures Follows(cfg, k, w, id, Run(cfg, s, evs), Balance(cfg, k, id, s, evs, b))
    decreases |evs|
  {
    if evs == [] {
    } else {
      hide Startable, Follows, Allowed, Advance, Noted;
      var ev := evs[0];
      if ev.Act? && ev.h in s.handlers {
        ActFollows(cfg, k, w, id, s, b, ev.h, ev.o);
      } else {
        ElseFollows(cfg, k, w, id, s, b, ev);
      }
      RunFollows(cfg, k, w, id, Advance(cfg, s, ev), evs[1..], Noted(k, id, s, ev, b));
    }
  }

  lemma StartFollows(cfg: Settings, k: nat, w: World, id: EnvId)
    requires Startable(cfg, k, w, id)
    ensures Follows(cfg, k, w, id, Sys(w, map[]), Opened(w, id))
  {
    hide DryRecord, With, NothingRecorded;
    assert w.store == w.store[id := w.store[id]];
  }

  lemma DrivenFollows(cfg: Settings, k: nat, w: World, id: EnvId, evs: seq<Event>)
    requires Startable(cfg, k, w, id) && Driven(cfg, k, w, id, evs)
    ensures Follows(cfg, k, w, id, Run(cfg, Sys(w, map[]), evs), Balance(cfg, k, id, Sys(w, map[]), evs, Opened(w, id)))
  {
    hide Startable, Follows, Conducted, Run, Balance;
    StartFollows(cfg, k, w, id);
    RunFollows(cfg, k, w, id, Sys(w, map[]), evs, Opened(w, id));
  }
}
