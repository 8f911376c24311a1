/**
 Where safety stops. A reconciliation that finds its recipe walk overfull returns early: the
 queued associations have already been narrowed to the current ones, the pass's own record of
 them has not. A request that stops and resumes communicating around such a step is forgotten,
 and its materials are deleted while it communicates. The whole run is built here, from an idle
 collector and with a registry that never holds more than one recipe.
 */
module MaterialLapse {
  import opened MaterialWorld
  import opened MaterialProjection
  import opened MaterialReclaim
  import opened MaterialGc
  import opened MaterialSafety

  const NAME: Path := ROOT + ["system", "content"]
  const FIRST: RequestId := 3
  const SECOND: RequestId := 7
  const RECIPE: Digest := 9
  const BYTES: Digest := 5
  const OBJECT: FileId := 3

  /**
   An installed tool outside the managed tree: pinned, the launch interpreter of both requests, and
   every recipe's path.
   */
  const TOOL: Path := ["usr", "tool"]
  const LAUNCH: Digest := 8
  const TOOLS: set<Path> := {TOOL}

  const SETTLED := Snapshot(false, Some(Attempt(Some(false), Some(Satisfied))))

  /** Two settled, delivered requests, launched by the tool; the second refers to `NAME`. */
  const ROWS: map<RequestId, Row> :=
    map[FIRST := Row(Input(1, Some(map[TOOL := LAUNCH]), {LAUNCH}), SETTLED, false, false),
        SECOND := Row(Input(2, Some(map[TOOL := LAUNCH, NAME := BYTES]), {LAUNCH}), SETTLED, false, false)]

  const BOTH: set<RequestId> := {FIRST, SECOND}

  /** The world after `n` recipes came and went, with the last one still there or not. */
  function Scene(n: nat, open: bool, associated: set<RequestId>): World {
    var entries: map<Digest, Recipe> := if open then map[RECIPE := Recipe(n, [TOOL])] else map[];
    World(Journal(ROWS, [], 0, 0, 0), associated, TOOLS,
          Registry(entries, {}, if open then 2 * n + 1 else 2 * n, if open then n + 1 else n, 32),
          Tree(map[NAME := File(OBJECT)], map[OBJECT := BYTES], 0))
  }

  const START := Checkpoint(0, 0, 0, 0)

  const INVENTORIED := Physical(AwaitingProof, Files, 0, map[NAME := OBJECT], map[], {}, {}, {}, map[], {}, map[], {})

  const OFFERED: map<Path, Digest> := map[NAME := BYTES]

  /** With `NAME` proved deletable and the tool retained: to be verified, or suspended. */
  function Proven(stage: Stage): Physical {
    Physical(stage, Files, 0, map[NAME := OBJECT], OFFERED, TOOLS, {}, {}, map[], TOOLS, OFFERED, {})
  }

  /** The tool is none of the managed names; then `NAME` is hashed. */
  const RESOLVED := Physical(Verifying, Files, 0, map[NAME := OBJECT], OFFERED, TOOLS, {}, {}, map[], {}, OFFERED, {})

  const CLEARED := Physical(Files, Files, 0, map[NAME := OBJECT], OFFERED, TOOLS, {}, {}, map[OBJECT := BYTES],
                            {}, map[], {})

  function PassAt(registry: nat, known: set<RequestId>, physical: Physical, cursor: Option<RequestId>, scanned: bool,
                  queue: set<RequestId>, candidates: map<Path, Digest>, held: set<Digest>, live: Option<Walk>): Pass {
    Pass(Key(START, 0, registry, known, TOOLS), Key(START, 0, 0, {}, TOOLS), physical, cursor, scanned, queue,
         Facts(candidates, TOOLS, held), {}, live, false)
  }

  /** The allocations of `n` recipes that were walked. */
  predicate Counted(seen: set<nat>, n: nat) {
    |seen| == n && forall a :: a in seen ==> a < n
  }

  function Choose(picks: set<Path>): Os {
    Os(picks, {}, {}, {}, true, false)
  }

  // ------------------------------------------------------------------- runs

  ghost predicate FreeNext(s: State, t: State) {
    (exists os :: Moves(s, os, t)) || (exists a :: EnvStep(s, a, t))
  }

  /** Runs of the collector as it is, whether or not its reconciliations are faithful. */
  ghost predicate FreeRun(run: seq<State>) {
    && run != [] && WorldOk(run[0].world) && run[0].gc == Gc(None, None)
    && forall i :: 0 < i < |run| ==> FreeNext(run[i - 1], run[i])
  }

  lemma Longer(run: seq<State>, t: State)
    requires FreeRun(run) && FreeNext(run[|run| - 1], t)
    ensures FreeRun(run + [t])
  {
  }

  lemma Acts(s: State, os: Os, t: State)
    requires Moves(s, os, t)
    ensures FreeNext(s, t)
  {
  }

  lemma Changed(s: State, a: EnvAction, t: State)
    requires EnvStep(s, a, t)
    ensures FreeNext(s, t)
  {
  }

  // ------------------------------------------------- the collector's own steps

  /** A pass that agrees with the world is not touched by reconciling. */
  lemma StepQuiet(w: World, p: Pass, os: Os, m: Moved)
    requires !Stale(w, p) && Advance(w, p, os) == Ok(m) && m.pass.physical.stage != Complete
    ensures Moves(State(w, Gc(Some(p), None)), os, State(m.world, Gc(Some(m.pass), None)))
  {
    StepAdvances(w, p, None, os, p, m);
  }

  lemma Begins()
    ensures Moves(State(Scene(0, false, {}), Gc(None, None)), Choose({NAME}),
                  Scanning(None, false, map[]))
  {
    var w := Scene(0, false, {});
    var found := map p | p in {NAME} && p in w.tree.names && w.tree.names[p].File? :: w.tree.names[p].id;
    assert found == map[NAME := OBJECT];
    var p := NewPass(w);
    var ph := InventoryStep(w.tree, p.physical, Choose({NAME})).value;
    assert ph.entries == map[NAME := OBJECT];
  }

  /** A pass that projects the journal row by row, before anything is associated. */
  function Scanning(cursor: Option<RequestId>, scanned: bool, candidates: map<Path, Digest>): State {
    State(Scene(0, false, {}), Gc(Some(PassAt(0, {}, INVENTORIED, cursor, scanned, {}, candidates, {}, None)), None))
  }

  lemma ScansFirst()
    ensures Moves(Scanning(None, false, map[]), Choose({}), Scanning(Some(FIRST), false, map[]))
  {
    var w, p := Scene(0, false, {}), PassAt(0, {}, INVENTORIED, None, false, {}, map[], {}, None);
    var q := PassAt(0, {}, INVENTORIED, Some(FIRST), false, {}, map[], {}, None);
    assert Ahead(w, p) == BOTH;
    assert Least(BOTH) == FIRST;
    Released(w, p, FIRST, map[]);
    StepQuiet(w, p, Choose({}), Moved(w, q));
  }

  /** Projecting a row that nobody communicates about only offers its inventoried references. */
  lemma GrowsReleased(x: Projected, listed: map<Path, Digest>)
    requires x.release && listed == Listed(x.references, {NAME})
    ensures Grow(Facts(map[], TOOLS, {}), x, {NAME}) == Facts(listed, TOOLS, {}) && Fits(Facts(listed, TOOLS, {}))
  {
    assert map[] + listed == listed && Named(listed, {}) == {};
    assert |listed| <= 1 by {
      if listed != map[] {
        assert listed == map[NAME := listed[NAME]];
      }
    }
    assert |TOOLS| == 1;
  }

  lemma Released(w: World, p: Pass, r: RequestId, listed: map<Path, Digest>)
    requires r in w.journal.rows && w.journal.rows == ROWS && w.registry.entries == map[] && r !in p.key.associated
    requires p.facts == Facts(map[], TOOLS, {}) && p.physical.entries == map[NAME := OBJECT] && r !in p.associated
    requires listed == Listed(ROWS[r].input.references.value, {NAME})
    ensures ProjectRow(w, p, r) == Ok(p.(facts := Facts(listed, TOOLS, {})))
  {
    var x := FactOf(w, p, r);
    assert Reclaimable(ROWS[r]) && x.release;
    assert p.physical.entries.Keys == {NAME};
    GrowsReleased(x, listed);
    assert p.associated - {r} == p.associated;
  }

  lemma ScansSecond()
    ensures Moves(Scanning(Some(FIRST), false, map[]), Choose({}), Scanning(Some(SECOND), false, OFFERED))
  {
    var w, p := Scene(0, false, {}), PassAt(0, {}, INVENTORIED, Some(FIRST), false, {}, map[], {}, None);
    var q := PassAt(0, {}, INVENTORIED, Some(SECOND), false, {}, OFFERED, {}, None);
    assert Ahead(w, p) == {SECOND};
    assert Least({SECOND}) == SECOND;
    ToolOutside();
    Released(w, p, SECOND, OFFERED);
    StepQuiet(w, p, Choose({}), Moved(w, q));
  }

  lemma ScanEnds()
    ensures Moves(Scanning(Some(SECOND), false, OFFERED), Choose({}), Scanning(Some(SECOND), true, OFFERED))
  {
    var w, p := Scene(0, false, {}), PassAt(0, {}, INVENTORIED, Some(SECOND), false, {}, OFFERED, {}, None);
    assert Ahead(w, p) == {};
    StepQuiet(w, p, Choose({}), Moved(w, p.(scanned := true)));
  }

  // ------------------------------------------------------------------ proofs

  lemma Proves(t: Tree, ph: Physical)
    requires t.generation == 0 && (ph == INVENTORIED || ph == Proven(AwaitingProof))
    ensures Prove(t, ph, OFFERED, TOOLS) == Ok(Proven(Verifying))
  {
    assert |OFFERED| == 1 && |TOOLS| == 1;
    var r := Prove(t, ph, OFFERED, TOOLS).value;
    assert r.pendingCandidates == OFFERED;
    assert r.pendingRetained == TOOLS && r.retained == TOOLS;
  }

  /** With nothing queued, changed, retired or left to walk, a waiting pass attaches its proof. */
  lemma AwaitProves(w: World, p: Pass, os: Os, live: Walk)
    requires CheckpointOf(w.journal) == START == p.key.checkpoint && w.tree.generation == 0
    requires p.scanned && p.associated == {} && p.retire == {}
    requires p.facts.candidates == OFFERED && p.facts.retained == TOOLS
    requires p.physical == INVENTORIED || p.physical == Proven(AwaitingProof)
    requires live.todo == {} && (p.live == Some(live) || (p.live.None? && !Crowded(live)
             && live == Refresh(w.registry, Walk({}, {}), w.registry.entries.Keys)))
    ensures Advance(w, p, os) == Ok(Moved(w, p.(physical := Proven(Verifying), live := Some(live))))
  {
    assert Changes(w, p) == Ok(Delta(p, false));
    Proves(w.tree, p.physical);
  }

  lemma FirstProof()
    ensures Moves(Scanning(Some(SECOND), true, OFFERED), Choose({}), Before(0, 0, {}))
  {
    var w, p := Scene(0, false, {}), PassAt(0, {}, INVENTORIED, Some(SECOND), true, {}, OFFERED, {}, None);
    assert Refresh(w.registry, Walk({}, {}), w.registry.entries.Keys) == Walk({}, {});
    AwaitProves(w, p, Choose({}), Walk({}, {}));
    StepQuiet(w, p, Choose({}), Moved(w, p.(physical := Proven(Verifying), live := Some(Walk({}, {})))));
  }

  // ------------------------------------------------------- recipes come and go

  /** A proved pass that walked `n` recipes, the last of which is gone. */
  function Before(n: nat, registry: nat, seen: set<nat>): State {
    var pass := PassAt(registry, {}, Proven(Verifying), Some(SECOND), true, {}, OFFERED, {}, Some(Walk(seen, {})));
    State(Scene(n, false, {}), Gc(Some(pass), None))
  }

  lemma Opens(n: nat, associated: set<RequestId>, g: Gc)
    ensures EnvStep(State(Scene(n, false, associated), g), Register(RECIPE, [TOOL]),
        State(Scene(n, true, associated), g))
  {
    var none: map<Digest, Recipe> := map[];
    assert none[RECIPE := Recipe(n, [TOOL])] == map[RECIPE := Recipe(n, [TOOL])];
  }

  lemma Closes(n: nat, associated: set<RequestId>, g: Gc)
    ensures EnvStep(State(Scene(n, true, associated), g), Unregister(RECIPE), State(Scene(n + 1, false, associated), g))
  {
    var one: map<Digest, Recipe> := map[RECIPE := Recipe(n, [TOOL])];
    assert one - {RECIPE} == map[];
  }

  lemma Talks(n: nat, open: bool, before: set<RequestId>, after: set<RequestId>, g: Gc)
    ensures EnvStep(State(Scene(n, open, before), g), Associate(after), State(Scene(n, open, after), g))
  {
  }

  lemma OpenWalk(n: nat, seen: set<nat>, associated: set<RequestId>)
    requires Counted(seen, n)
    ensures var r := Scene(n, true, associated).registry;
            && Refresh(r, Walk(seen, {}), r.entries.Keys) == Walk(seen + {n}, {Coord(RECIPE, n, 0)})
            && Counted(seen + {n}, n + 1)
  {
    var r := Scene(n, true, associated).registry;
    assert r.entries.Keys == {RECIPE};
    RefreshOne(r, Walk(seen, {}), RECIPE);
    CountedMore(seen, n);
  }

  /** Walking a new recipe with one path remembers it and has one coordinate to visit. */
  lemma RefreshOne(r: Registry, k: Walk, d: Digest)
    requires d in r.entries && |r.entries[d].paths| == 1 && r.entries[d].alloc !in k.seen
    ensures var a := r.entries[d].alloc; Refresh(r, k, {d}) == Walk(k.seen + {a}, k.todo + {Coord(d, a, 0)})
  {
    var added := set e | e in {d} && e in r.entries :: r.entries[e].alloc;
    assert d in {d} && r.entries[d].alloc in added;
    assert Coords(r, {d}, k.seen) == {Coord(d, r.entries[d].alloc, 0)};
  }

  lemma CountedMore(seen: set<nat>, n: nat)
    requires Counted(seen, n)
    ensures Counted(seen + {n}, n + 1)
  {
  }

  /** Reconciling with a changed registry that fits, when nothing was queued and nobody joined. */
  lemma Follows(w: World, p: Pass, os: Os, live: Walk, queue: set<RequestId>)
    requires p.live.Some? && p.key.registry != w.registry.generation && w.pins == TOOLS == p.facts.retained
    requires live == Refresh(w.registry, p.live.value, w.registry.entries.Keys) && |live.seen| <= LIMIT
    requires queue == (p.associated + (w.associated - p.key.associated)) * w.associated
    ensures Sync(w, p, os) == Synced(p.(physical := Recheck(p.physical), associated := queue, live := Some(live),
                                        key := KeyOf(w).(checkpoint := p.key.checkpoint)), true)
  {
    SyncFields(w, p, os, live);
    assert p.facts.retained + w.pins == p.facts.retained;
  }

  /** What the operating system decides when the one recipe is walked. */
  function Reach(n: nat): Os {
    Os({}, {Coord(RECIPE, n, 0)}, {}, {}, true, false)
  }

  /** The recipe was walked: the proof has to be attached again. */
  function Walking(n: nat, seen: set<nat>): Gc {
    Gc(Some(PassAt(2 * n + 1, {}, Proven(AwaitingProof), Some(SECOND), true, {}, OFFERED, {}, Some(Walk(seen, {})))),
        None)
  }

  /** While the recipe is there, one step walks it. */
  lemma WalksIt(n: nat, registry: nat, seen: set<nat>)
    requires Counted(seen, n) && n < LIMIT && registry != 2 * n + 1
    ensures Moves(State(Scene(n, true, {}), Before(n, registry, seen).gc), Reach(n),
                  State(Scene(n, true, {}), Walking(n, seen + {n})))
  {
    var w, p, os := Scene(n, true, {}), Before(n, registry, seen).gc.pass.value, Reach(n);
    var c := Coord(RECIPE, n, 0);
    var live := Walk(seen + {n}, {c});
    OpenWalk(n, seen, {});
    Follows(w, p, os, live, {});
    var q := PassAt(2 * n + 1, {}, Proven(AwaitingProof), Some(SECOND), true, {}, OFFERED, {}, Some(live));
    assert Sync(w, p, os) == Synced(q, true);
    VisitsTool(w, q, os, c);
    StepAdvances(w, p, None, os, q, Moved(w, Walking(n, seen + {n}).pass.value));
  }

  /** Visiting the one coordinate retains the tool, which is pinned anyway. */
  lemma VisitsTool(w: World, q: Pass, os: Os, c: Coord)
    requires CheckpointOf(w.journal) == START == q.key.checkpoint
    requires q.scanned && q.associated == {} && q.retire == {} && q.physical.stage == AwaitingProof
    requires q.facts.retained == TOOLS && q.live.Some? && q.live.value.todo == {c} == os.coords
    requires Alive(w.registry, c) && w.registry.entries[c.digest].paths == [TOOL]
    ensures Advance(w, q, os) == Ok(Moved(w, q.(live := Some(q.live.value.(todo := {})))))
  {
    assert Changes(w, q) == Ok(Delta(q, false));
    assert {c} * {c} == {c} && {c} - {c} == {};
    assert c in {c} && Visit(w.registry, {c}) == TOOLS;
    assert TOOLS + TOOLS == TOOLS && |TOOLS| == 1;
  }

  /** The next step attaches the proof again. */
  lemma ProvesAgain(n: nat, seen: set<nat>)
    ensures Moves(State(Scene(n, true, {}), Walking(n, seen)), Choose({}),
                  State(Scene(n, true, {}), Before(n + 1, 2 * n + 1, seen).gc))
  {
    var w, p, live := Scene(n, true, {}), Walking(n, seen).pass.value, Walk(seen, {});
    AwaitProves(w, p, Choose({}), live);
    StepQuiet(w, p, Choose({}), Moved(w, p.(physical := Proven(Verifying), live := Some(live))));
  }

  /** The run has come to a proved pass that walked `n` recipes. */
  ghost predicate Walked(run: seq<State>, n: nat, registry: nat, seen: set<nat>) {
    FreeRun(run) && run[|run| - 1] == Before(n, registry, seen) && Counted(seen, n)
  }

  lemma Round(run: seq<State>, n: nat, registry: nat, seen: set<nat>) returns (more: seq<State>)
    requires Walked(run, n, registry, seen) && n < LIMIT && registry <= 2 * n
    ensures Walked(more, n + 1, 2 * n + 1, seen + {n})
  {
    var g, h := Before(n, registry, seen).gc, Before(n + 1, 2 * n + 1, seen + {n}).gc;
    OpenWalk(n, seen, {});
    Opens(n, {}, g);
    Changed(run[|run| - 1], Register(RECIPE, [TOOL]), State(Scene(n, true, {}), g));
    Longer(run, State(Scene(n, true, {}), g));
    var a := run + [State(Scene(n, true, {}), g)];
    WalksIt(n, registry, seen);
    a := Then(a, Reach(n), State(Scene(n, true, {}), Walking(n, seen + {n})));
    ProvesAgain(n, seen + {n});
    var b := Then(a, Choose({}), State(Scene(n, true, {}), h));
    Closes(n, {}, h);
    Changed(b[|b| - 1], Unregister(RECIPE), State(Scene(n + 1, false, {}), h));
    Longer(b, State(Scene(n + 1, false, {}), h));
    more := b + [State(Scene(n + 1, false, {}), h)];
  }

  lemma Opening() returns (run: seq<State>)
    ensures FreeRun(run) && run[|run| - 1] == Before(0, 0, {})
  {
    var w := Scene(0, false, {});
    run := [State(w, Gc(None, None))];
    assert WorldOk(w) by {
      assert NAME != ROOT && InRoot(NAME);
    }
    Begins();
    run := Then(run, Choose({NAME}), Scanning(None, false, map[]));
    ScansFirst();
    run := Then(run, Choose({}), Scanning(Some(FIRST), false, map[]));
    ScansSecond();
    run := Then(run, Choose({}), Scanning(Some(SECOND), false, OFFERED));
    ScanEnds();
    run := Then(run, Choose({}), Scanning(Some(SECOND), true, OFFERED));
    FirstProof();
    run := Then(run, Choose({}), Before(0, 0, {}));
  }

  lemma Then(run: seq<State>, os: Os, t: State) returns (more: seq<State>)
    requires FreeRun(run) && Moves(run[|run| - 1], os, t)
    ensures FreeRun(more) && more == run + [t]
  {
    Acts(run[|run| - 1], os, t);
    Longer(run, t);
    more := run + [t];
  }

  lemma Meanwhile(run: seq<State>, a: EnvAction, t: State) returns (more: seq<State>)
    requires FreeRun(run) && EnvStep(run[|run| - 1], a, t)
    ensures FreeRun(more) && more == run + [t]
  {
    Changed(run[|run| - 1], a, t);
    Longer(run, t);
    more := run + [t];
  }

  lemma {:induction false} Rounds(n: nat) returns (run: seq<State>, registry: nat, seen: set<nat>)
    requires n <= LIMIT
    ensures Walked(run, n, registry, seen)
    ensures registry == if n == 0 then 0 else 2 * n - 1
  {
    if n == 0 {
      run := Opening();
      registry, seen := 0, {};
    } else {
      var k: nat := n - 1;
      run, registry, seen := Rounds(k);
      run := Round(run, k, registry, seen);
      registry, seen := 2 * k + 1, seen + {k};
      assert k + 1 == n;
    }
  }

  // ------------------------------------------------------------------ the lapse

  /** The pass from here on: both requests known to it, some of them still queued. */
  function Knowing(registry: nat, physical: Physical, queue: set<RequestId>, seen: set<nat>): Gc {
    Gc(Some(PassAt(registry, BOTH, physical, Some(SECOND), true, queue, OFFERED, {LAUNCH}, Some(Walk(seen, {})))), None)
  }

  lemma EmptyWalk(n: nat, seen: set<nat>, associated: set<RequestId>)
    ensures var r := Scene(n, false, associated).registry; Refresh(r, Walk(seen, {}), r.entries.Keys) == Walk(seen, {})
  {
    var r := Scene(n, false, associated).registry;
    assert Coords(r, r.entries.Keys, seen) == {};
  }

  /** Both requests begin to communicate: they are queued, and the step at once projects the first. */
  lemma Queues(n: nat, registry: nat, seen: set<nat>)
    requires Counted(seen, n) && n <= LIMIT && registry != 2 * n
    ensures Moves(State(Scene(n, false, BOTH), Before(n, registry, seen).gc), Choose({}),
                  State(Scene(n, false, BOTH), Knowing(2 * n, Proven(AwaitingProof), {SECOND}, seen)))
  {
    var w, p, os := Scene(n, false, BOTH), Before(n, registry, seen).gc.pass.value, Choose({});
    var live := Walk(seen, {});
    EmptyWalk(n, seen, BOTH);
    Follows(w, p, os, live, BOTH);
    var q := PassAt(2 * n, BOTH, Proven(AwaitingProof), Some(SECOND), true, BOTH, OFFERED, {}, Some(live));
    assert Sync(w, p, os) == Synced(q, true);
    HeldFirst(w, q);
    StepAdvances(w, p, None, os, q, Moved(w, Knowing(2 * n, Proven(AwaitingProof), {SECOND}, seen).pass.value));
  }

  /** Holding the first row only adds its launch interpreter: the tool is retained, and no candidate is it. */
  lemma GrowsFirst(inventory: set<Path>)
    ensures var f := Grow(Facts(OFFERED, TOOLS, {}), Projected(map[TOOL := LAUNCH], {LAUNCH}, false), inventory);
            f == Facts(OFFERED, TOOLS, {LAUNCH}) && Fits(f)
  {
    var x := Projected(map[TOOL := LAUNCH], {LAUNCH}, false);
    assert {LAUNCH} - {} == {LAUNCH} && Named(OFFERED, {LAUNCH}) == {};
    assert x.references.Keys == TOOLS;
    assert |OFFERED| == 1 && |TOOLS| == 1 && |{LAUNCH}| == 1;
  }

  lemma HeldFirst(w: World, q: Pass)
    requires w.journal.rows == ROWS && q.key.associated == BOTH == q.associated && q.scanned
    requires q.facts == Facts(OFFERED, TOOLS, {}) && q.retire == {} && q.physical.stage == AwaitingProof
    ensures Advance(w, q, Choose({}))
            == Ok(Moved(w, q.(associated := {SECOND}, facts := Facts(OFFERED, TOOLS, {LAUNCH}))))
  {
    assert Least(BOTH) == FIRST;
    assert FactOf(w, q, FIRST) == Projected(map[TOOL := LAUNCH], {LAUNCH}, false);
    GrowsFirst(q.physical.entries.Keys);
    assert BOTH - {FIRST} == {SECOND};
    assert q.retire - {w.journal.rows[FIRST].input.digest} == {};
  }

  lemma SecondOnlyQueued(w: World, p: Pass)
    requires w.journal.rows == ROWS && w.pins == TOOLS && p.facts.retained == TOOLS && p.scanned
    requires w.journal.receipts == [] && p.key.checkpoint == START
    requires SECOND in p.associated * p.key.associated - w.associated
    ensures OnlyQueued(w, p, SECOND)
  {
    ToolOutside();
    assert NAME in ROWS[SECOND].input.references.value && NAME !in TOOLS;
  }

  /** The walk is full, the second request pauses: the step fails, and has already dropped it from the queue. */
  lemma Forgets(n: nat, seen: set<nat>)
    requires Counted(seen, n) && n == LIMIT
    ensures var w, p := Scene(n, true, {FIRST}), Knowing(2 * n, Proven(AwaitingProof), {SECOND}, seen).pass.value;
            !Reconciles(w, p)
    ensures Moves(State(Scene(n, true, {FIRST}), Knowing(2 * n, Proven(AwaitingProof), {SECOND}, seen)), Choose({}),
                  State(Scene(n, true, {FIRST}), Knowing(2 * n, Proven(AwaitingProof), {}, seen)))
  {
    var w, os := Scene(n, true, {FIRST}), Choose({});
    var p := Knowing(2 * n, Proven(AwaitingProof), {SECOND}, seen).pass.value;
    OpenWalk(n, seen, {FIRST});
    assert Overfull(w, p);
    SecondOnlyQueued(w, p);
    Narrows(w, p, os, Walk(seen + {n}, {Coord(RECIPE, n, 0)}));
    StepFails(w, p, None, os);
  }

  /** A reconciliation whose walk is overfull narrows the queue and changes nothing else of a waiting pass. */
  lemma Narrows(w: World, p: Pass, os: Os, live: Walk)
    requires p.live.Some? && p.key.registry != w.registry.generation && os.partial == {}
    requires live == Refresh(w.registry, p.live.value, w.registry.entries.Keys) && |live.seen| > LIMIT
    requires p.facts.retained == w.pins && p.physical == Recheck(p.physical)
    requires p.associated == {SECOND} && p.key.associated == BOTH && w.associated == {FIRST}
    ensures Sync(w, p, os) == Synced(p.(associated := {}), false)
  {
    SyncFields(w, p, os, live);
    assert os.partial * w.registry.entries.Keys == {};
    NothingWalked(w.registry, p.live.value);
    assert ({SECOND} + ({FIRST} - BOTH)) * {FIRST} == {};
    assert p.facts.retained + w.pins == p.facts.retained;
  }

  lemma NothingWalked(r: Registry, k: Walk)
    ensures Refresh(r, k, {}) == k
  {
    assert Coords(r, {}, k.seen) == {};
  }

  /** Both communicate again: nothing is queued, so the deletion is proved. */
  lemma ProvesWrongly(n: nat, seen: set<nat>)
    requires Counted(seen, n) && n == LIMIT
    ensures Moves(State(Scene(n + 1, false, BOTH), Knowing(2 * n, Proven(AwaitingProof), {}, seen)), Choose({}),
                  State(Scene(n + 1, false, BOTH), Knowing(2 * n + 2, Proven(Verifying), {}, seen)))
  {
    var w, p, os := Scene(n + 1, false, BOTH), Knowing(2 * n, Proven(AwaitingProof), {}, seen).pass.value, Choose({});
    var live := Walk(seen, {});
    EmptyWalk(n + 1, seen, BOTH);
    Follows(w, p, os, live, {});
    var q := Knowing(2 * n + 2, Proven(AwaitingProof), {}, seen).pass.value;
    assert Sync(w, p, os) == Synced(q, true);
    AwaitProves(w, q, os, live);
    StepAdvances(w, p, None, os, q, Moved(w, q.(physical := Proven(Verifying), live := Some(live))));
  }

  lemma ToolOutside()
    ensures !InRoot(TOOL) && NAME != TOOL
  {
    assert |ROOT[0]| == 9 && |TOOL[0]| == 3 && |NAME[0]| == 9;
    assert ROOT[0] != TOOL[0] && NAME[0] != TOOL[0];
  }

  /** The retained tool lies outside the managed tree, so nothing has to be resolved for it. */
  lemma Resolves(n: nat, seen: set<nat>)
    ensures Moves(State(Scene(n, false, BOTH), Knowing(2 * n, Proven(Verifying), {}, seen)), Choose(TOOLS),
                  State(Scene(n, false, BOTH), Knowing(2 * n, RESOLVED, {}, seen)))
  {
    var w, p, os := Scene(n, false, BOTH), Knowing(2 * n, Proven(Verifying), {}, seen).pass.value, Choose(TOOLS);
    var popped := set x | x in os.picks && x in p.physical.pendingRetained;
    ToolOutside();
    assert popped == TOOLS;
    var inside := set x | x in popped && InRoot(x);
    assert inside == {};
    var r := ResolveRetained(w.tree, p.physical, os);
    assert r.Ok? && r.value.pendingRetained == {} && r.value.shielded == {} && r.value.shieldedDirs == {};
    StepQuiet(w, p, os, Moved(w, Knowing(2 * n, RESOLVED, {}, seen).pass.value));
  }

  lemma Verifies(n: nat, seen: set<nat>)
    ensures Moves(State(Scene(n, false, BOTH), Knowing(2 * n, RESOLVED, {}, seen)), Choose({NAME}),
                  State(Scene(n, false, BOTH), Knowing(2 * n, CLEARED, {}, seen)))
  {
    var w, p, os := Scene(n, false, BOTH), Knowing(2 * n, RESOLVED, {}, seen).pass.value, Choose({NAME});
    var ph := p.physical;
    var popped := set x | x in os.picks && x in ph.pendingCandidates;
    assert popped == {NAME} && Authentic(w.tree, ph, NAME);
    var r := HashCandidates(w.tree, ph, os);
    assert r.Ok? && r.value.pendingCandidates == map[];
    assert r.value.proven == map[OBJECT := BYTES] by {
      assert NAME in popped && ph.entries[NAME] == OBJECT;
    }
    StepQuiet(w, p, os, Moved(w, Knowing(2 * n, CLEARED, {}, seen).pass.value));
  }

  /** The step after that removes a name that a communicating request refers to. */
  lemma Deletes(n: nat, seen: set<nat>) returns (t: State)
    ensures Moves(State(Scene(n, false, BOTH), Knowing(2 * n, CLEARED, {}, seen)), Choose({NAME}), t)
    ensures NAME in Scene(n, false, BOTH).tree.names && NAME !in t.world.tree.names
    ensures SECOND in Scene(n, false, BOTH).associated && Protects(Scene(n, false, BOTH), SECOND)
    ensures !SafeRemoval(Scene(n, false, BOTH), NAME)
  {
    var w, p, os := Scene(n, false, BOTH), Knowing(2 * n, CLEARED, {}, seen).pass.value, Choose({NAME});
    assert Deletable(p.physical, NAME);
    assert NAME in FilesGone(p.physical, os);
    var m := Moved(w.(tree := Remove(w.tree, Gone(w.tree, p.physical, os))), p.(physical := Deleted(p.physical, os)));
    StepQuiet(w, p, os, m);
    t := State(m.world, Gc(Some(m.pass), None));
    assert Protects(w, SECOND) && NAME in w.journal.rows[SECOND].input.references.value;
    assert Needed(w, NAME) && Harms(w.tree, NAME, NAME);
  }

  /** From the walk that is full to the forgotten request, and on until both communicate again. */
  lemma Lapses(run: seq<State>, n: nat, registry: nat, seen: set<nat>) returns (more: seq<State>)
    requires FreeRun(run) && run[|run| - 1] == Before(n, registry, seen)
    requires Counted(seen, n) && n == LIMIT && registry == 2 * n - 1
    ensures FreeRun(more)
    ensures more[|more| - 1] == State(Scene(n + 1, false, BOTH), Knowing(2 * n, Proven(AwaitingProof), {}, seen))
  {
    var g := Before(n, registry, seen).gc;
    var g1 := Knowing(2 * n, Proven(AwaitingProof), {SECOND}, seen);
    var g2 := Knowing(2 * n, Proven(AwaitingProof), {}, seen);
    Talks(n, false, {}, BOTH, g);
    more := Meanwhile(run, Associate(BOTH), State(Scene(n, false, BOTH), g));
    Queues(n, registry, seen);
    more := Then(more, Choose({}), State(Scene(n, false, BOTH), g1));
    Opens(n, BOTH, g1);
    more := Meanwhile(more, Register(RECIPE, [TOOL]), State(Scene(n, true, BOTH), g1));
    Talks(n, true, BOTH, {FIRST}, g1);
    more := Meanwhile(more, Associate({FIRST}), State(Scene(n, true, {FIRST}), g1));
    Forgets(n, seen);
    more := Then(more, Choose({}), State(Scene(n, true, {FIRST}), g2));
    Closes(n, {FIRST}, g2);
    more := Meanwhile(more, Unregister(RECIPE), State(Scene(n + 1, false, {FIRST}), g2));
    Talks(n + 1, false, {FIRST}, BOTH, g2);
    more := Meanwhile(more, Associate(BOTH), State(Scene(n + 1, false, BOTH), g2));
  }

  lemma Ends(run: seq<State>, n: nat, seen: set<nat>) returns (more: seq<State>)
    requires FreeRun(run) && Counted(seen, n) && n == LIMIT
    requires run[|run| - 1] == State(Scene(n + 1, false, BOTH), Knowing(2 * n, Proven(AwaitingProof), {}, seen))
    ensures FreeRun(more) && |more| >= 2 && LastRemoves(more)
  {
    ProvesWrongly(n, seen);
    more := Then(run, Choose({}), State(Scene(n + 1, false, BOTH), Knowing(2 * n + 2, Proven(Verifying), {}, seen)));
    Resolves(n + 1, seen);
    more := Then(more, Choose(TOOLS), State(Scene(n + 1, false, BOTH), Knowing(2 * n + 2, RESOLVED, {}, seen)));
    Verifies(n + 1, seen);
    more := Then(more, Choose({NAME}), State(Scene(n + 1, false, BOTH), Knowing(2 * n + 2, CLEARED, {}, seen)));
    var t := Deletes(n + 1, seen);
    more := Then(more, Choose({NAME}), t);
  }

  /** The last step deletes a name that a communicating request refers to. */
  ghost predicate LastRemoves(run: seq<State>)
    requires |run| >= 2
  {
    var s, t := run[|run| - 2], run[|run| - 1];
    && Moves(s, Choose({NAME}), t)
    && NAME in s.world.tree.names && NAME !in t.world.tree.names
    && SECOND in s.world.associated && Protects(s.world, SECOND) && !SafeRemoval(s.world, NAME)
  }

  /**
   The assumption of the safety theorem is needed: this run of the collector starts idle, and
   its last step deletes a file that a communicating request refers to.
   */
  lemma Lapse() returns (run: seq<State>)
    ensures FreeRun(run) && |run| >= 2 && LastRemoves(run)
  {
    var start, registry, seen := Rounds(LIMIT);
    var forgotten := Lapses(start, LIMIT, registry, seen);
    run := Ends(forgotten, LIMIT, seen);
  }
}
