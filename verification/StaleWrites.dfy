/** Why late writes are excluded from ordered runs: whole records overwrite one another. */
module StaleWrites {
  import opened Records
  import opened Ledgers
  import opened Handlers
  import opened Sessions
  import opened DryRun
  import opened Driver

  /** A vpc delivery v loads the record; a repeated one, u, runs to its acknowledgement; the rds delivery d stores its
      group; then v goes on to its own Put. */
  function StaleTrace(id: EnvId): seq<Event> {
    var v, u, d := Hid(id, 0), Hid(id, 1), Hid(id, 2);
    var fine := Ok("");
    [Arrive(v, Vpc, Forward), Act(v, fine),
     Arrive(u, Vpc, Forward), Act(u, fine), Act(u, fine), Act(u, fine), Act(u, fine), Act(u, fine),
     Arrive(d, Rds, Forward), Act(d, fine), Act(d, fine), Act(d, fine), Act(d, fine),
     Act(v, fine), Act(v, fine), Act(v, fine)]
  }

  function Walk(cfg: Settings, s: Sys, evs: seq<Event>, n: nat): Sys
    requires n <= |evs|
  {
    if n == 0 then s else Advance(cfg, Walk(cfg, s, evs, n - 1), evs[n - 1])
  }

  function Ledgered(cfg: Settings, id: EnvId, s: Sys, evs: seq<Event>, b: Book, n: nat): Book
    requires n <= |evs|
  {
    if n == 0 then b else Noted(8, id, Walk(cfg, s, evs, n - 1), evs[n - 1], Ledgered(cfg, id, s, evs, b, n - 1))
  }

  /** A trace is in order if each of its events is allowed where it stands. */
  lemma {:induction false} InOrder(cfg: Settings, id: EnvId, s: Sys, evs: seq<Event>, b: Book, n: nat, i: nat)
    requires i <= n <= |evs|
    requires forall j | i <= j < n :: Allowed(8, id, Walk(cfg, s, evs, j), evs[j], Ledgered(cfg, id, s, evs, b, j))
    ensures Conducted(cfg, 8, id, Walk(cfg, s, evs, i), evs[i..n], Ledgered(cfg, id, s, evs, b, i))
    decreases n - i
  {
    hide Advance, Allowed, Noted, Walk, Ledgered;
    if i == n {
      assert evs[i..n] == [];
    } else {
      InOrder(cfg, id, s, evs, b, n, i + 1);
      OneAlong(cfg, id, s, evs, b, i);
      assert evs[i..n][0] == evs[i] && evs[i..n][1..] == evs[i + 1..n];
    }
  }

  lemma OneAlong(cfg: Settings, id: EnvId, s: Sys, evs: seq<Event>, b: Book, i: nat)
    requires i < |evs|
    ensures Walk(cfg, s, evs, i + 1) == Advance(cfg, Walk(cfg, s, evs, i), evs[i])
    ensures Ledgered(cfg, id, s, evs, b, i + 1)
         == Noted(8, id, Walk(cfg, s, evs, i), evs[i], Ledgered(cfg, id, s, evs, b, i))
  {
    hide Advance, Noted;
  }

  lemma {:induction false} WalkIsRun(cfg: Settings, s: Sys, evs: seq<Event>, n: nat, i: nat)
    requires i <= n <= |evs|
    ensures Run(cfg, Walk(cfg, s, evs, i), evs[i..n]) == Walk(cfg, s, evs, n)
    decreases n - i
  {
    hide Advance;
    if i == n {
      assert evs[i..n] == [];
    } else {
      WalkIsRun(cfg, s, evs, n, i + 1);
      assert evs[i..n][0] == evs[i] && evs[i..n][1..] == evs[i + 1..n];
    }
  }

  /** One event of a handler at work. */
  lemma WorkEvent(cfg: Settings, s: Sys, h: Hid, r: Record, prog: seq<Action>, pc: nat, o: Outcome)
    requires h in s.handlers && s.handlers[h].stage == Working(r, prog, pc) && pc < |prog|
    ensures
      var handler := s.handlers[h];
      var s' := Advance(cfg, s, Act(h, o));
      match Perform(cfg, handler.step, prog[pc], s.world, r, o)
      case Go(w', r') => s' == Sys(w', s.handlers[h := handler.(stage := Working(r', prog, pc + 1))])
      case Stop(w', answer) => s' == Sys(w', s.handlers[h := handler.(stage := Replied(answer))])
  {
    hide Perform;
  }

  /** A delivery of a dry-run step arrives and reads the record. */
  lemma ReadEvents(cfg: Settings, s: Sys, h: Hid, step: Step)
    requires h !in s.handlers && h.envId in s.world.store && s.world.store[h.envId].dryRun
             && (step == Vpc || step == Rds)
    ensures
      var s1 := Advance(cfg, s, Arrive(h, step, Forward));
      && s1 == Sys(s.world, s.handlers[h := Handler(step, Forward, Loading)])
      && Advance(cfg, s1, Act(h, Ok("")))
         == Sys(s.world, s.handlers[h := Handler(step, Forward,
                                                 Working(s.world.store[h.envId], [Check, Fill, Put], 0))])
  {
    var read := Handler(step, Forward, Working(s.world.store[h.envId], [Check, Fill, Put], 0));
    assert s.handlers[h := Handler(step, Forward, Loading)][h := read] == s.handlers[h := read];
  }

  /** A reading handler of an unmarked step goes through its check, its fill and its Put. */
  lemma FillEvents(cfg: Settings, s: Sys, h: Hid, step: Step, r: Record)
    requires h in s.handlers && s.handlers[h] == Handler(step, Forward, Working(r, [Check, Fill, Put], 0))
             && (step == Vpc || step == Rds)
    requires r.dryRun && !Marked(step, r) && r.id == h.envId
    ensures
      var s1 := Advance(cfg, s, Act(h, Ok("")));
      var s2 := Advance(cfg, s1, Act(h, Ok("")));
      var s3 := Advance(cfg, s2, Act(h, Ok("")));
      var q := With(cfg, step, r);
      && s1 == Sys(s.world, s.handlers[h := Handler(step, Forward, Working(r, [Check, Fill, Put], 1))])
      && s2 == Sys(s.world, s.handlers[h := Handler(step, Forward, Working(q, [Check, Fill, Put], 2))])
      && s3 == Sys(s.world.(store := s.world.store[h.envId := q]),
                   s.handlers[h := Handler(step, Forward, Working(q, [Check, Fill, Put], 3))])
  {
    hide With, Without, Perform, Advance;
    var prog := [Check, Fill, Put];
    var q := With(cfg, step, r);
    KeepsId(cfg, step, r);
    PerformsAre(cfg, step, s.world, r, q);
    WorkEvent(cfg, s, h, r, prog, 0, Ok(""));
    var s1 := Sys(s.world, s.handlers[h := Handler(step, Forward, Working(r, prog, 1))]);
    WorkEvent(cfg, s1, h, r, prog, 1, Ok(""));
    assert s1.handlers[h := Handler(step, Forward, Working(q, prog, 2))]
        == s.handlers[h := Handler(step, Forward, Working(q, prog, 2))];
    var s2 := Sys(s.world, s.handlers[h := Handler(step, Forward, Working(q, prog, 2))]);
    WorkEvent(cfg, s2, h, q, prog, 2, Ok(""));
    assert s2.handlers[h := Handler(step, Forward, Working(q, prog, 3))]
        == s.handlers[h := Handler(step, Forward, Working(q, prog, 3))];
  }

  lemma PerformsAre(cfg: Settings, step: Step, w: World, r: Record, q: Record)
    requires r.dryRun && !Marked(step, r) && (step == Vpc || step == Rds)
    ensures Perform(cfg, step, Check, w, r, Ok("")) == Go(w, r)
    ensures Perform(cfg, step, Fill, w, r, Ok("")) == Go(w, With(cfg, step, r))
    ensures Perform(cfg, step, Put, w, q, Ok("")) == Go(w.(store := w.store[q.id := q]), q)
  {
    hide With, Without;
  }

  lemma KeepsId(cfg: Settings, step: Step, r: Record)
    ensures With(cfg, step, r).id == r.id && With(cfg, step, r).dryRun == r.dryRun
    ensures step == Vpc ==> Marked(Rds, With(cfg, step, r)) == Marked(Rds, r)
  {
    hide EnvPath, PolicyName, AppSpiffeId, DbProxySpiffeId;
  }

  lemma EndEvent(cfg: Settings, s: Sys, h: Hid, step: Step, q: Record)
    requires h in s.handlers && s.handlers[h] == Handler(step, Forward, Working(q, [Check, Fill, Put], 3))
    ensures Advance(cfg, s, Act(h, Ok(""))) == Sys(s.world, s.handlers[h := Handler(step, Forward, Replied(Acked))])
  {
  }

  /** The states along the trace, where it matters. */
  predicate Milestones(cfg: Settings, w: World, id: EnvId)
    requires id in w.store
  {
    var r, evs, s0 := w.store[id], StaleTrace(id), Sys(w, map[]);
    var v, u, d := Hid(id, 0), Hid(id, 1), Hid(id, 2);
    var q := With(cfg, Vpc, r);
    var x := With(cfg, Rds, q);
    var prog := [Check, Fill, Put];
    && Walk(cfg, s0, evs, 8) == Sys(w.(store := w.store[id := q]),
                                    map[v := Handler(Vpc, Forward, Working(r, prog, 0)),
                                        u := Handler(Vpc, Forward, Replied(Acked))])
    && d in Walk(cfg, s0, evs, 9).handlers && Walk(cfg, s0, evs, 9).handlers[d].stage == Loading
    && id in Walk(cfg, s0, evs, 9).world.store
    && Walk(cfg, s0, evs, 13).world.store == w.store[id := x]
    && v in Walk(cfg, s0, evs, 13).handlers
    && Walk(cfg, s0, evs, 13).handlers[v] == Handler(Vpc, Forward, Working(r, prog, 0))
    && v in Walk(cfg, s0, evs, 14).handlers
    && Walk(cfg, s0, evs, 14).handlers[v] == Handler(Vpc, Forward, Working(r, prog, 1))
    && v in Walk(cfg, s0, evs, 15).handlers
    && Walk(cfg, s0, evs, 15).handlers[v] == Handler(Vpc, Forward, Working(q, prog, 2))
    && Walk(cfg, s0, evs, 16).world.store == w.store[id := q]
  }

  lemma FirstEight(cfg: Settings, w: World, id: EnvId)
    requires DryRow(cfg, w, id) && !Marked(Vpc, w.store[id])
    ensures
      var v, u := Hid(id, 0), Hid(id, 1);
      Walk(cfg, Sys(w, map[]), StaleTrace(id), 8)
      == Sys(w.(store := w.store[id := With(cfg, Vpc, w.store[id])]),
             map[v := Handler(Vpc, Forward, Working(w.store[id], [Check, Fill, Put], 0)),
                 u := Handler(Vpc, Forward, Replied(Acked))])
  {
    hide With, Canonical, Advance, Marked;
    var r, evs, s0 := w.store[id], StaleTrace(id), Sys(w, map[]);
    ReadEvents(cfg, s0, Hid(id, 0), Vpc);
    var s2 := Walk(cfg, s0, evs, 2);
    assert Walk(cfg, s0, evs, 1) == Advance(cfg, s0, evs[0]);
    ReadEvents(cfg, s2, Hid(id, 1), Vpc);
    var s4 := Walk(cfg, s0, evs, 4);
    assert Walk(cfg, s0, evs, 3) == Advance(cfg, s2, evs[2]);
    FillEvents(cfg, s4, Hid(id, 1), Vpc, r);
    assert Walk(cfg, s0, evs, 5) == Advance(cfg, s4, evs[4]);
    assert Walk(cfg, s0, evs, 6) == Advance(cfg, Walk(cfg, s0, evs, 5), evs[5]);
    EndEvent(cfg, Walk(cfg, s0, evs, 7), Hid(id, 1), Vpc, With(cfg, Vpc, r));
  }

  lemma StaleWalk(cfg: Settings, w: World, id: EnvId)
    requires DryRow(cfg, w, id) && !Marked(Vpc, w.store[id]) && !Marked(Rds, w.store[id])
    ensures Milestones(cfg, w, id)
  {
    hide With, Canonical, Advance, Marked;
    var r, evs, s0 := w.store[id], StaleTrace(id), Sys(w, map[]);
    var q := With(cfg, Vpc, r);
    FirstEight(cfg, w, id);
    KeepsId(cfg, Vpc, r);
    KeepsId(cfg, Rds, q);
    var s8 := Walk(cfg, s0, evs, 8);
    ReadEvents(cfg, s8, Hid(id, 2), Rds);
    assert Walk(cfg, s0, evs, 9) == Advance(cfg, s8, evs[8]);
    var s10 := Walk(cfg, s0, evs, 10);
    FillEvents(cfg, s10, Hid(id, 2), Rds, q);
    assert Walk(cfg, s0, evs, 11) == Advance(cfg, s10, evs[10]);
    assert Walk(cfg, s0, evs, 12) == Advance(cfg, Walk(cfg, s0, evs, 11), evs[11]);
    var s13 := Walk(cfg, s0, evs, 13);
    FillEvents(cfg, s13, Hid(id, 0), Vpc, r);
    assert Walk(cfg, s0, evs, 14) == Advance(cfg, s13, evs[13]);
    assert Walk(cfg, s0, evs, 15) == Advance(cfg, Walk(cfg, s0, evs, 14), evs[14]);
    assert Walk(cfg, s0, evs, 16) == Advance(cfg, Walk(cfg, s0, evs, 15), evs[15]);
  }

  lemma EventsAre(id: EnvId, n: nat)
    requires n < 16
    ensures
      var ev := StaleTrace(id)[n];
      && ev.h.envId == id && (ev.h.n == 2 <==> 8 <= n <= 12) && (ev.Arrive? <==> n == 0 || n == 2 || n == 8)
      && !ev.Crash?
      && (ev.Arrive? ==> ev.dir == Forward && ev.step == if ev.h.n == 2 then Rds else Vpc)
      && (n == 9 ==> ev == Act(Hid(id, 2), Ok("")))
  {
  }

  /** The third delivery is of rds, the others are of vpc. */
  ghost predicate Sorted(s: Sys) {
    forall h :: h in s.handlers ==> s.handlers[h].dir == Forward && s.handlers[h].step == if h.n == 2 then Rds else Vpc
  }

  lemma AdvanceSorted(cfg: Settings, s: Sys, ev: Event)
    requires Sorted(s) && (ev.Arrive? ==> ev.dir == Forward && ev.step == if ev.h.n == 2 then Rds else Vpc)
    ensures Sorted(Advance(cfg, s, ev))
  {
    hide Perform, Program;
  }

  lemma {:induction false} StepsAlong(cfg: Settings, w: World, id: EnvId, n: nat)
    requires n <= 16
    ensures Sorted(Walk(cfg, Sys(w, map[]), StaleTrace(id), n))
  {
    if n > 0 {
      hide Advance, StaleTrace, Sorted;
      StepsAlong(cfg, w, id, n - 1);
      EventsAre(id, n - 1);
      AdvanceSorted(cfg, Walk(cfg, Sys(w, map[]), StaleTrace(id), n - 1), StaleTrace(id)[n - 1]);
    } else {
      assert Walk(cfg, Sys(w, map[]), StaleTrace(id), 0) == Sys(w, map[]);
    }
  }

  /** How one event of the trace moves the book. */
  lemma BookMoves(id: EnvId, s: Sys, b: Book, n: nat)
    requires n < 15 && Sorted(s) && b.m == if n <= 9 then 0 else 1
    requires n == 9 ==> Hid(id, 2) in s.handlers && s.handlers[Hid(id, 2)].stage == Loading && id in s.world.store
    ensures Noted(8, id, s, StaleTrace(id)[n], b).m == if n + 1 <= 9 then 0 else 1
  {
    hide StaleTrace;
    EventsAre(id, n);
  }

  lemma {:induction false} BookAlong(cfg: Settings, w: World, id: EnvId, n: nat)
    requires n <= 15 && id in w.store && Milestones(cfg, w, id)
    ensures Ledgered(cfg, id, Sys(w, map[]), StaleTrace(id), Opened(w, id), n).m == if n <= 9 then 0 else 1
  {
    if n > 0 {
      hide Noted, Sorted, Advance, With, Walk, StaleTrace;
      BookAlong(cfg, w, id, n - 1);
      StepsAlong(cfg, w, id, n - 1);
      BookMoves(id, Walk(cfg, Sys(w, map[]), StaleTrace(id), n - 1),
                Ledgered(cfg, id, Sys(w, map[]), StaleTrace(id), Opened(w, id), n - 1), n - 1);
    }
  }

  lemma FirstIsAcked(cfg: Settings, w: World, id: EnvId)
    requires id in w.store && Milestones(cfg, w, id)
    ensures AckedAt(8, Walk(cfg, Sys(w, map[]), StaleTrace(id), 8), 0)
  {
    hide Advance, Walk, With;
    assert Hid(id, 1) in Walk(cfg, Sys(w, map[]), StaleTrace(id), 8).handlers;
  }

  lemma EachAllowed(cfg: Settings, w: World, id: EnvId, j: nat)
    requires j <= 15 && id in w.store && Milestones(cfg, w, id)
    ensures
      Allowed(8, id, Walk(cfg, Sys(w, map[]), StaleTrace(id), j), StaleTrace(id)[j],
              Ledgered(cfg, id, Sys(w, map[]), StaleTrace(id), Opened(w, id), j))
      <==> j < 15
  {
    hide Advance, Walk, With, Ledgered;
    BookAlong(cfg, w, id, j);
    StepsAlong(cfg, w, id, j);
    if j == 8 { FirstIsAcked(cfg, w, id); }
  }

  /** Whole records overwrite one another: in a run that is in order up to its last event, a late vpc Put, the rds group
      has been stored; after that event it is gone. */
  lemma StalePutErases(cfg: Settings, w: World, id: EnvId)
    requires DryRow(cfg, w, id) && !Marked(Vpc, w.store[id]) && !Marked(Rds, w.store[id])
    ensures
      var evs := StaleTrace(id);
      var q := With(cfg, Vpc, w.store[id]);
      && Driven(cfg, 8, w, id, evs[..15])
      && Run(cfg, Sys(w, map[]), evs[..13]).world.store == w.store[id := With(cfg, Rds, q)]
      && Run(cfg, Sys(w, map[]), evs).world.store == w.store[id := q]
  {
    hide With, Canonical, Advance, Walk, Allowed, Ledgered, Conducted, Run;
    var evs, s0 := StaleTrace(id), Sys(w, map[]);
    StaleWalk(cfg, w, id);
    forall j | 0 <= j < 15 ensures Allowed(8, id, Walk(cfg, s0, evs, j), evs[j],
                                           Ledgered(cfg, id, s0, evs, Opened(w, id), j)) {
      EachAllowed(cfg, w, id, j);
    }
    WalkStarts(cfg, id, s0, evs, Opened(w, id));
    InOrder(cfg, id, s0, evs, Opened(w, id), 15, 0);
    WalkIsRun(cfg, s0, evs, 13, 0);
    WalkIsRun(cfg, s0, evs, 16, 0);
    assert evs[0..15] == evs[..15] && evs[0..13] == evs[..13] && evs[0..16] == evs;
  }

  lemma WalkStarts(cfg: Settings, id: EnvId, s: Sys, evs: seq<Event>, b: Book)
    ensures Walk(cfg, s, evs, 0) == s && Ledgered(cfg, id, s, evs, b, 0) == b
  {
  }
}
