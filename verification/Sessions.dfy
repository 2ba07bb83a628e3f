/** Any number of handlers over one world, interleaved one step at a time. */
module Sessions {
  import opened Records
  import opened Ledgers
  import opened Handlers

  /** A delivery: the environment it is for, and a number. */
  datatype Hid = Hid(envId: string, n: nat)

  datatype Event =
    | Arrive(h: Hid, step: Step, dir: Direction)
    | Act(h: Hid, o: Outcome)
    | Crash(h: Hid)

  datatype Sys = Sys(world: World, handlers: map<Hid, Handler>)

  function Advance(cfg: Settings, s: Sys, ev: Event): Sys {
    match ev
    case Arrive(h, step, dir) =>
      if h in s.handlers then s else s.(handlers := s.handlers[h := Handler(step, dir, Loading)])
    case Act(h, o) =>
      if h !in s.handlers then s
      else
        var (w, handler) := Tick(cfg, s.world, h.envId, s.handlers[h], o);
        Sys(w, s.handlers[h := handler])
    case Crash(h) =>
      if h !in s.handlers || s.handlers[h].stage.Replied? then s
      else s.(handlers := s.handlers[h := s.handlers[h].(stage := Dead)])
  }

  function Run(cfg: Settings, s: Sys, evs: seq<Event>): Sys
    decreases |evs|
  {
    if evs == [] then s else Run(cfg, Advance(cfg, s, evs[0]), evs[1..])
  }

  /** The trace of a single undisturbed handler. */
  function Steps(h: Hid, script: seq<Outcome>): seq<Event> {
    if script == [] then [] else [Act(h, script[0])] + Steps(h, script[1..])
  }

  /** The big-step Serve is the interleaved machine with one handler in it. */
  lemma ServeIsOneHandler(cfg: Settings, w: World, h: Hid, step: Step, dir: Direction, script: seq<Outcome>)
    ensures
      var s := Run(cfg, Sys(w, map[]), [Arrive(h, step, dir)] + Steps(h, script));
      var (w', answer) := Serve(cfg, w, h.envId, step, dir, script);
      && s.world == w'
      && h in s.handlers
      && answer == match s.handlers[h].stage { case Replied(a) => a case _ => NoReply }
  {
    var s0 := Sys(w, map[h := Handler(step, dir, Loading)]);
    var evs := [Arrive(h, step, dir)] + Steps(h, script);
    assert Sys(w, map[]).handlers[h := Handler(step, dir, Loading)] == s0.handlers;
    assert evs[1..] == Steps(h, script);
    assert Run(cfg, Sys(w, map[]), evs) == Run(cfg, s0, Steps(h, script));
    if script == [] {
    } else {
      assert Steps(h, script)[1..] == Steps(h, script[1..]);
      var (w1, h1) := Tick(cfg, w, h.envId, s0.handlers[h], script[0]);
      assert w1 == w && s0.handlers[h := h1] == map[h := h1];
      if script[0].Ok? && h.envId in w.store {
        var r := w.store[h.envId];
        CarryIsOneHandler(cfg, w, h, step, dir, r, Program(cfg, step, dir, r), 0, script);
      } else {
        SettledStays(cfg, Sys(w, map[h := h1]), h, script[1..]);
      }
    }
  }

  lemma {:induction false} CarryIsOneHandler(cfg: Settings, w: World, h: Hid, step: Step, dir: Direction, r: Record,
                                             prog: seq<Action>, pc: nat, script: seq<Outcome>)
    requires pc <= |prog| && pc < |script|
    ensures
      var s := Run(cfg, Sys(w, map[h := Handler(step, dir, Working(r, prog, pc))]), Steps(h, script[pc + 1..]));
      var (w', answer) := Carry(cfg, step, w, r, prog, pc, script);
      && s.world == w'
      && h in s.handlers
      && answer == match s.handlers[h].stage { case Replied(a) => a case _ => NoReply }
    decreases |prog| - pc
  {
    hide Perform;
    var handler := Handler(step, dir, Working(r, prog, pc));
    var s := Sys(w, map[h := handler]);
    var rest := script[pc + 1..];
    if rest == [] {
    } else {
      assert Steps(h, rest)[1..] == Steps(h, rest[1..]) && rest[0] == script[pc + 1];
      assert rest[1..] == script[pc + 2..];
      var (w1, h1) := Tick(cfg, w, h.envId, handler, rest[0]);
      assert s.handlers[h := h1] == map[h := h1];
      if h1.stage.Working? {
        CarryIsOneHandler(cfg, w1, h, step, dir, h1.stage.local, prog, pc + 1, script);
      } else {
        SettledStays(cfg, Sys(w1, map[h := h1]), h, rest[1..]);
      }
    }
  }

  lemma {:induction false} SettledStays(cfg: Settings, s: Sys, h: Hid, script: seq<Outcome>)
    requires h in s.handlers && s.handlers[h].stage.Replied?
    ensures Run(cfg, s, Steps(h, script)) == s
  {
    if script == [] {
    } else {
      assert Steps(h, script)[1..] == Steps(h, script[1..]);
      assert s.handlers[h := s.handlers[h]] == s.handlers;
      SettledStays(cfg, s, h, script[1..]);
    }
  }

  // ----- the store changes only when a Put reaches it -----

  predicate Stores(s: Sys, ev: Event) {
    && ev.Act? && ev.h in s.handlers && s.handlers[ev.h].stage.Working?
    && s.handlers[ev.h].stage.pc < |s.handlers[ev.h].stage.prog|
    && s.handlers[ev.h].stage.prog[s.handlers[ev.h].stage.pc] == Put
    && (ev.o.Ok? || ev.o.Lost?)
  }

  /** Some Put of the trace was applied, acknowledged or not. */
  predicate PutReached(cfg: Settings, s: Sys, evs: seq<Event>)
    decreases |evs|
  {
    evs != [] && (Stores(s, evs[0]) || PutReached(cfg, Advance(cfg, s, evs[0]), evs[1..]))
  }

  lemma AttemptKeepsStore(cfg: Settings, a: Action, w: World, r: Record, o: Outcome)
    ensures Attempt(cfg, a, w, r, o).world.store == w.store
  {
    hide Intent, Legal, Updated;
  }

  /** Every other action is one request to the outside, unless it is left out. */
  lemma PerformIs(cfg: Settings, step: Step, a: Action, w: World, r: Record, o: Outcome)
    requires !Inner(a) && a != NameEntries && (a == PurgeVersions ==> !o.Partial?)
    ensures Perform(cfg, step, a, w, r, o) == if Skips(a, r) then Go(w, r) else Attempt(cfg, a, w, r, o)
  {
    hide Attempt;
  }

  lemma PerformStores(cfg: Settings, step: Step, a: Action, w: World, r: Record, o: Outcome)
    ensures
      var v := Perform(cfg, step, a, w, r, o);
      if a == Put && (o.Ok? || o.Lost?) then v.world == w.(store := w.store[r.id := r])
      else v.world.store == w.store
    ensures a == Put && o.Ok? ==> Perform(cfg, step, a, w, r, o).Go?
  {
    hide Attempt, With, Without, Updated, AlreadyDone;
    AttemptKeepsStore(cfg, a, w, r, o);
  }

  lemma StoreChangesByPut(cfg: Settings, s: Sys, ev: Event)
    ensures
      var s' := Advance(cfg, s, ev);
      if Stores(s, ev) then
        var local := s.handlers[ev.h].stage.local;
        s'.world == s.world.(store := s.world.store[local.id := local])
      else s'.world.store == s.world.store
  {
    hide Perform, Program;
    if ev.Act? && ev.h in s.handlers {
      var h := s.handlers[ev.h];
      if h.stage.Working? && h.stage.pc < |h.stage.prog| {
        PerformStores(cfg, h.step, h.stage.prog[h.stage.pc], s.world, h.stage.local, ev.o);
      }
    }
  }

  lemma {:induction false} NoPutNoChange(cfg: Settings, s: Sys, evs: seq<Event>)
    requires !PutReached(cfg, s, evs)
    ensures Run(cfg, s, evs).world.store == s.world.store
    decreases |evs|
  {
    if evs == [] {
    } else {
      hide Advance;
      StoreChangesByPut(cfg, s, evs[0]);
      NoPutNoChange(cfg, Advance(cfg, s, evs[0]), evs[1..]);
    }
  }
}
