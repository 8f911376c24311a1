/**
 The incremental collector: one bounded step at a time between owner commands. A step first
 reconciles the pass with whatever changed since the last one, then advances it.
 */
module MaterialGc {
  import opened MaterialWorld
  import opened MaterialProjection
  import opened MaterialReclaim

  datatype Key = Key(checkpoint: Checkpoint, root: nat, registry: nat,
                     associated: set<RequestId>, pins: set<Path>)

  /** A walk over registered recipes: allocations folded in, and coordinates still to visit. */
  datatype Walk = Walk(seen: set<nat>, todo: set<Coord>)

  datatype Pass = Pass(key: Key, initial: Key, physical: Physical, cursor: Option<RequestId>,
                       scanned: bool, associated: set<RequestId>, facts: Facts,
                       retire: set<Digest>, live: Option<Walk>, retry: bool)

  datatype Gc = Gc(pass: Option<Pass>, completed: Option<Key>)

  datatype Moved = Moved(world: World, pass: Pass)

  datatype Outcome = Outcome(world: World, gc: Gc, ok: bool)

  function KeyOf(w: World): Key {
    Key(CheckpointOf(w.journal), w.tree.generation, w.registry.generation, w.associated, w.pins)
  }

  function Least(s: set<nat>): (m: nat)
    requires s != {}
    ensures m in s && forall x :: x in s ==> m <= x
  {
    LeastExists(s);
    assert exists m :: m in s && forall x :: x in s ==> m <= x by {
      var m :| IsLeast(s, m);
    }
    var m :| m in s && forall x :: x in s ==> m <= x;
    m
  }

  ghost predicate IsLeast(s: set<nat>, m: nat) {
    m in s && forall x :: x in s ==> m <= x
  }

  lemma {:induction false} LeastExists(s: set<nat>)
    requires s != {}
    ensures exists m :: IsLeast(s, m)
    decreases |s|
  {
    var y :| y in s;
    var rest := s - {y};
    assert s == rest + {y};
    if rest == {} {
      assert IsLeast(s, y);
    } else {
      LeastExists(rest);
      var m :| IsLeast(rest, m);
      assert IsLeast(s, if y < m then y else m);
    }
  }

  // ---------------------------------------------------------- registry walk

  function Coords(r: Registry, digests: set<Digest>, seen: set<nat>): set<Coord> {
    set d, i | d in digests && d in r.entries && r.entries[d].alloc !in seen && 0 <= i < |r.entries[d].paths|
      :: Coord(d, r.entries[d].alloc, i)
  }

  /** Fold the recipes named by `digests` into a walk, keeping its progress. */
  function Refresh(r: Registry, k: Walk, digests: set<Digest>): Walk {
    Walk(k.seen + (set d | d in digests && d in r.entries :: r.entries[d].alloc), k.todo + Coords(r, digests, k.seen))
  }

  predicate Crowded(k: Walk) {
    |k.seen| > LIMIT
  }

  /** A coordinate whose allocation is still the registered one; a retired recipe is skipped. */
  predicate Alive(r: Registry, c: Coord) {
    c.digest in r.entries && r.entries[c.digest].alloc == c.alloc && c.index < |r.entries[c.digest].paths|
  }

  function Visit(r: Registry, cs: set<Coord>): set<Path> {
    set c | c in cs && Alive(r, c) :: r.entries[c.digest].paths[c.index]
  }

  // ------------------------------------------------------------ reconciling

  predicate Stale(w: World, p: Pass) {
    var key := KeyOf(w);
    || key.root != p.key.root || key.registry != p.key.registry
    || key.associated != p.key.associated || key.pins != p.key.pins
    || !ProofCurrent(w.journal, p.key.checkpoint)
  }

  /** `ok` is false when the walk is crowded: the pass is then kept, half reconciled. */
  datatype Synced = Synced(pass: Pass, ok: bool)

  function Sync(w: World, p: Pass, os: Os): Synced {
    var key := KeyOf(w);
    if !Stale(w, p) then Synced(p, true)
    else
      var q := p.(physical := Recheck(p.physical),
                  associated := (p.associated + (key.associated - p.key.associated)) * key.associated,
                  facts := p.facts.(retained := p.facts.retained + key.pins));
      if key.registry != p.key.registry && p.live.Some? then
        var all := Refresh(w.registry, p.live.value, w.registry.entries.Keys);
        if Crowded(all) then
          Synced(q.(live := Some(Refresh(w.registry, p.live.value, os.partial * w.registry.entries.Keys))), false)
        else Synced(q.(live := Some(all), key := key.(checkpoint := p.key.checkpoint)), true)
      else Synced(q.(key := key.(checkpoint := p.key.checkpoint)), true)
  }

  /** The registry changed under a walk that has no room for what it holds now. */
  predicate Overfull(w: World, p: Pass) {
    && p.key.registry != w.registry.generation && p.live.Some?
    && Crowded(Refresh(w.registry, p.live.value, w.registry.entries.Keys))
  }

  lemma SyncFits(w: World, p: Pass, os: Os)
    ensures Sync(w, p, os).ok <==> !Overfull(w, p)
  {
  }

  function NewPass(w: World): Pass {
    Pass(KeyOf(w), KeyOf(w), Begin(w.tree), None, false, w.associated, Facts(map[], w.pins, {}), {}, None, false)
  }

  // -------------------------------------------------------------- advancing

  /** The row of request `r` as it is projected now. */
  function FactOf(w: World, p: Pass, r: RequestId): Projected
    requires r in w.journal.rows && w.journal.rows[r].input.references.Some?
  {
    var row := w.journal.rows[r];
    Projected(row.input.references.value, row.input.interpreters, Reclaimable(row) && r !in p.key.associated)
  }

  function ProjectRow(w: World, p: Pass, r: RequestId): Result<Pass>
    requires r in w.journal.rows
  {
    var input := w.journal.rows[r].input;
    if input.references.None? then Err(Untrusted)
    else
      var x := FactOf(w, p, r);
      match Project(p.facts, x, p.physical.entries.Keys)
      case Err(e) => Err(e)
      case Ok(facts) =>
        Ok(p.(associated := p.associated - {r}, facts := facts,
              retire := if !x.release then p.retire - {input.digest}
                        else if input.digest in w.registry.entries then p.retire + {input.digest}
                        else p.retire))
  }

  /** Request ids the history scan has not reached. */
  function Ahead(w: World, p: Pass): set<RequestId> {
    if p.scanned then {} else set r | r in w.journal.rows && (p.cursor.None? || r > p.cursor.value)
  }

  function Scan(w: World, p: Pass): Result<Pass> {
    var ahead := Ahead(w, p);
    if ahead == {} then Ok(p.(scanned := true))
    else
      var r := Least(ahead);
      match ProjectRow(w, p, r)
      case Err(e) => Err(e)
      case Ok(q) => Ok(q.(cursor := Some(r)))
  }

  /** Receipt deltas since the checkpoint, one at a time; `more` stops the step there. */
  datatype Delta = Delta(pass: Pass, more: bool)

  function Changes(w: World, p: Pass): Result<Delta> {
    var j, c := w.journal, p.key.checkpoint;
    if j.external != c.external || |j.receipts| < c.receipt then Err(Conflict)
    else if c.receipt == |j.receipts| then Ok(Delta(p.(key := p.key.(checkpoint := CheckpointOf(j))), false))
    else
      var receipt := j.receipts[c.receipt];
      var item := !receipt.trust && receipt.request in j.rows;
      var projected := if item then ProjectRow(w, p, receipt.request) else Ok(p);
      match projected
      case Err(e) => Err(e)
      case Ok(q) =>
        var complete := c.receipt + 1 == |j.receipts|;
        Ok(Delta(q.(key := q.key.(checkpoint := if complete then CheckpointOf(j) else c.(receipt := c.receipt + 1))),
                 !complete || item))
  }

  function Retire(w: World, p: Pass): Moved
    requires p.retire != {}
  {
    var d := Least(p.retire);
    var q := p.(retire := p.retire - {d});
    if d in w.registry.entries && d in w.registry.leased then
      Moved(w, q.(retry := true, key := q.key.(registry := w.registry.generation)))
    else
      var registry := if d in w.registry.entries then Without(w.registry, d) else w.registry;
      Moved(w.(registry := registry), q.(key := q.key.(registry := registry.generation)))
  }

  /** Walk the registered recipes, and attach the proof once nothing is left to visit. */
  function Settle(w: World, p: Pass, os: Os): Result<Pass> {
    var live := if p.live.Some? then p.live.value else Refresh(w.registry, Walk({}, {}), w.registry.entries.Keys);
    if p.live.None? && Crowded(live) then Err(Capacity)
    else if live.todo != {} then
      var picked := live.todo * os.coords;
      var retained := p.facts.retained + Visit(w.registry, picked);
      if |retained| > LIMIT then Err(Capacity)
      else Ok(p.(facts := p.facts.(retained := retained), live := Some(live.(todo := live.todo - picked))))
    else
      match Prove(w.tree, p.physical, p.facts.candidates, p.facts.retained)
      case Err(e) => Err(e)
      case Ok(ph) => Ok(p.(physical := ph, live := Some(live)))
  }

  function Await(w: World, p: Pass, os: Os): Result<Moved> {
    if !p.scanned then
      match Scan(w, p)
      case Err(e) => Err(e)
      case Ok(q) => Ok(Moved(w, q))
    else if p.associated != {} then
      var r := Least(p.associated);
      if r !in w.journal.rows then Err(Storage)
      else match ProjectRow(w, p, r)
        case Err(e) => Err(e)
        case Ok(q) => Ok(Moved(w, q))
    else
      match Changes(w, p)
      case Err(e) => Err(e)
      case Ok(delta) =>
        var q := delta.pass;
        if delta.more then Ok(Moved(w, q))
        else if q.retire != {} then Ok(Retire(w, q))
        else match Settle(w, q, os)
          case Err(e) => Err(e)
          case Ok(s) => Ok(Moved(w, s))
  }

  /** Deletion runs only behind the journal's writer fence and on the proved publication state. */
  function Delete(w: World, p: Pass, os: Os): Result<Moved> {
    if !ProofCurrent(w.journal, p.key.checkpoint) || p.physical.generation != w.tree.generation then Err(Conflict)
    else if os.fault then Err(Storage)
    else Ok(Moved(w.(tree := Remove(w.tree, Gone(w.tree, p.physical, os))),
                  p.(physical := Deleted(p.physical, os))))
  }

  function Advance(w: World, p: Pass, os: Os): Result<Moved> {
    match p.physical.stage
    case AwaitingProof => Await(w, p, os)
    case Files => Delete(w, p, os)
    case Directories => Delete(w, p, os)
    case Complete => Ok(Moved(w, p))
    case Inventory =>
      (match InventoryStep(w.tree, p.physical, os)
       case Err(e) => Err(e)
       case Ok(ph) => Ok(Moved(w, p.(physical := ph))))
    case Verifying =>
      (match VerifyStep(w.tree, p.physical, os)
       case Err(e) => Err(e)
       case Ok(ph) => Ok(Moved(w, p.(physical := ph))))
  }

  function Step(w: World, g: Gc, os: Os): Outcome {
    if g.pass.Some? && !Sync(w, g.pass.value, os).ok then
      Outcome(w, g.(pass := Some(Sync(w, g.pass.value, os).pass)), false)
    else if g.pass.None? && g.completed == Some(KeyOf(w)) then Outcome(w, g, true)
    else
      var p := if g.pass.Some? then Sync(w, g.pass.value, os).pass else NewPass(w);
      match Advance(w, p, os)
      case Err(_) => Outcome(w, Gc(None, None), false)
      case Ok(m) =>
        if m.pass.physical.stage == Complete then
          Outcome(m.world, Gc(None, if m.pass.retry then None else Some(m.pass.initial)), true)
        else Outcome(m.world, g.(pass := Some(m.pass)), true)
  }

  lemma StepFails(w: World, p: Pass, completed: Option<Key>, os: Os)
    requires !Sync(w, p, os).ok
    ensures Step(w, Gc(Some(p), completed), os) == Outcome(w, Gc(Some(Sync(w, p, os).pass), completed), false)
  {
  }

  lemma StepAdvances(w: World, p: Pass, completed: Option<Key>, os: Os, q: Pass, m: Moved)
    requires Sync(w, p, os) == Synced(q, true) && Advance(w, q, os) == Ok(m) && m.pass.physical.stage != Complete
    ensures Step(w, Gc(Some(p), completed), os) == Outcome(m.world, Gc(Some(m.pass), completed), true)
  {
  }

  /** Reconciling after a registry change, field by field. */
  lemma SyncFields(w: World, p: Pass, os: Os, all: Walk)
    requires p.live.Some? && p.key.registry != w.registry.generation
    requires all == Refresh(w.registry, p.live.value, w.registry.entries.Keys)
    ensures var s := Sync(w, p, os); var q := s.pass;
            && s.ok == !Crowded(all)
            && q == p.(physical := Recheck(p.physical), associated := q.associated, facts := q.facts,
                       live := q.live, key := q.key)
            && q.associated == (p.associated + (w.associated - p.key.associated)) * w.associated
            && q.facts == p.facts.(retained := p.facts.retained + w.pins)
            && q.key == (if s.ok then KeyOf(w).(checkpoint := p.key.checkpoint) else p.key)
            && q.live == Some(if s.ok then all
                              else Refresh(w.registry, p.live.value, os.partial * w.registry.entries.Keys))
  {
  }
}
