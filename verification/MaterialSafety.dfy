/**
 Safety of the collector over whole runs: whatever the journal, the associations, the pins,
 the registry and the publisher do between steps, nothing that is still needed is deleted.
 */
module MaterialSafety {
  import opened MaterialWorld
  import opened MaterialProjection
  import opened MaterialReclaim
  import opened MaterialGc

  // ------------------------------------------------------------- invariant

  /** The row's coordinates and interpreters are held by the pass. */
  ghost predicate Covered(w: World, p: Pass, r: RequestId) {
    r in w.journal.rows && CoveredRow(p.facts, w.journal.rows[r])
  }

  ghost predicate CoveredRow(f: Facts, row: Row) {
    && row.input.references.Some?
    && row.input.references.value.Keys <= f.retained
    && row.input.interpreters <= f.interpreters
  }

  /** A receipt of `r` that the pass has yet to fold in. */
  ghost predicate Undelivered(w: World, p: Pass, r: RequestId) {
    exists i :: p.key.checkpoint.receipt <= i < |w.journal.receipts| && w.journal.receipts[i] == Receipt(r, false)
  }

  /** Every row that protects its materials is held, or some later scan or receipt will reach it. */
  ghost predicate Coverage(w: World, p: Pass) {
    p.key.checkpoint.external == w.journal.external ==>
      forall r :: r in w.journal.rows ==>
        && (!Reclaimable(w.journal.rows[r]) ==>
              Covered(w, p, r) || r in Ahead(w, p) || Undelivered(w, p, r))
        && (r in p.key.associated ==>
              Covered(w, p, r) || r in Ahead(w, p) || Undelivered(w, p, r) || r in p.associated)
  }

  ghost predicate Ordered(w: World, p: Pass) {
    && p.key.checkpoint.external <= w.journal.external
    && p.key.checkpoint.safety <= w.journal.safety
    && (p.key.checkpoint.external == w.journal.external ==> p.key.checkpoint.receipt <= |w.journal.receipts|)
    && p.key.registry <= w.registry.generation
  }

  /** Registered recipes in the walk are visited or queued; none is missing at the pass's generation. */
  ghost predicate Walked(w: World, p: Pass) {
    p.live.Some? ==>
      && (forall n :: n in p.live.value.seen ==> n < w.registry.nextAlloc)
      && (forall d :: d in w.registry.entries && w.registry.entries[d].alloc in p.live.value.seen ==>
            Reached(p, d, w.registry.entries[d]))
      && (p.key.registry == w.registry.generation ==>
            forall d :: d in w.registry.entries ==> w.registry.entries[d].alloc in p.live.value.seen)
  }

  ghost predicate Reached(p: Pass, d: Digest, recipe: Recipe)
    requires p.live.Some?
  {
    forall i :: 0 <= i < |recipe.paths| ==>
      Coord(d, recipe.alloc, i) in p.live.value.todo || recipe.paths[i] in p.facts.retained
  }

  /** After the proof: its sets are the physical ones and, while current, cover every protected row. */
  ghost predicate Proved(w: World, p: Pass) {
    p.physical.stage in {Verifying, Files, Directories} ==>
      && p.physical.retained == p.facts.retained && p.physical.candidates == p.facts.candidates
      && p.live.Some? && p.live.value.todo == {}
      && (ProofCurrent(w.journal, p.key.checkpoint) ==>
            forall r :: r in w.journal.rows && (!Reclaimable(w.journal.rows[r]) || r in p.key.associated)
                        ==> Covered(w, p, r))
  }

  ghost predicate PassOk(w: World, p: Pass) {
    && Ordered(w, p) && Coverage(w, p) && Walked(w, p) && Proved(w, p) && Closed(p.facts)
    && PhysicalOk(w.tree, p.physical)
    && p.key.pins <= p.facts.retained && p.physical.retained <= p.facts.retained
    && (p.physical.stage == Inventory ==> p.physical.candidates == map[])
  }

  ghost predicate Inv(w: World, g: Gc) {
    WorldOk(w) && (g.pass.Some? ==> PassOk(w, g.pass.value))
  }

  // ----------------------------------------------------------- environment

  lemma EnvCoverage(w: World, a: EnvAction, p: Pass)
    requires Enabled(w, a) && Ordered(w, p) && Coverage(w, p)
    ensures Coverage(Apply(w, a), p)
  {
    var u := Apply(w, a);
    if p.key.checkpoint.external == u.journal.external {
      forall r | r in u.journal.rows
        ensures !Reclaimable(u.journal.rows[r]) ==> Covered(u, p, r) || r in Ahead(u, p) || Undelivered(u, p, r)
        ensures r in p.key.associated ==>
                  Covered(u, p, r) || r in Ahead(u, p) || Undelivered(u, p, r) || r in p.associated
      {
        if a.Record? && r == a.request {
          var i := |w.journal.receipts|;
          assert u.journal.receipts[i] == Receipt(r, false);
        } else {
          if Undelivered(w, p, r) {
            var i :| p.key.checkpoint.receipt <= i < |w.journal.receipts| && w.journal.receipts[i] == Receipt(r, false);
            assert u.journal.receipts[i] == Receipt(r, false);
          }
        }
      }
    }
  }

  lemma EnvProved(w: World, a: EnvAction, p: Pass)
    requires Enabled(w, a) && Ordered(w, p) && Proved(w, p)
    ensures Proved(Apply(w, a), p)
  {
    var u := Apply(w, a);
    if p.physical.stage in {Verifying, Files, Directories} && ProofCurrent(u.journal, p.key.checkpoint) {
      assert ProofCurrent(w.journal, p.key.checkpoint);
      forall r | r in u.journal.rows && (!Reclaimable(u.journal.rows[r]) || r in p.key.associated)
        ensures Covered(u, p, r)
      {
        if a.Record? && r == a.request {
          QuietWriteStaysProtected(w, r, a.row);
        }
        assert Covered(w, p, r);
      }
    }
  }

  lemma EnvKeeps(w: World, a: EnvAction, g: Gc)
    requires Inv(w, g) && Enabled(w, a)
    ensures Inv(Apply(w, a), g)
  {
    if g.pass.Some? {
      var p := g.pass.value;
      EnvCoverage(w, a, p);
      EnvProved(w, a, p);
      if a.Publish? {
        PublishOk(w, a, p.physical);
      }
    }
  }

  // --------------------------------------------------------------- a step

  /** A walk refreshed with `digests` queues every coordinate of a recipe it had not seen. */
  lemma RefreshReaches(w: World, p: Pass, q: Pass, digests: set<Digest>)
    requires RegistryOk(w.registry) && p.live.Some? && Walked(w, p) && digests <= w.registry.entries.Keys
    requires q.live == Some(Refresh(w.registry, p.live.value, digests)) && p.facts.retained <= q.facts.retained
    ensures forall n :: n in q.live.value.seen ==> n < w.registry.nextAlloc
    ensures forall d :: d in w.registry.entries && w.registry.entries[d].alloc in q.live.value.seen ==>
              Reached(q, d, w.registry.entries[d])
    ensures forall d :: d in digests ==> w.registry.entries[d].alloc in q.live.value.seen
    ensures p.live.value.seen <= q.live.value.seen
  {
    forall d | d in w.registry.entries && w.registry.entries[d].alloc in q.live.value.seen
      ensures Reached(q, d, w.registry.entries[d])
    {
      var recipe := w.registry.entries[d];
      if recipe.alloc in p.live.value.seen {
        assert Reached(p, d, recipe);
      } else {
        assert d in digests;
        assert forall i :: 0 <= i < |recipe.paths| ==>
                 Coord(d, recipe.alloc, i) in Coords(w.registry, digests, p.live.value.seen);
      }
    }
  }

  lemma SyncWalked(w: World, p: Pass, os: Os)
    requires RegistryOk(w.registry) && Walked(w, p) && Ordered(w, p) && Stale(w, p)
    ensures Walked(w, Sync(w, p, os).pass)
  {
    var q := Sync(w, p, os).pass;
    if p.live.Some? {
      if w.registry.generation != p.key.registry {
        RefreshReaches(w, p, q, if Sync(w, p, os).ok then w.registry.entries.Keys
                                else os.partial * w.registry.entries.Keys);
      } else {
        assert forall d :: d in w.registry.entries && Reached(p, d, w.registry.entries[d]) ==>
                 Reached(q, d, w.registry.entries[d]);
      }
    }
  }

  /** The row's coordinates and interpreters are held once the present pins are. */
  ghost predicate HeldWithPins(w: World, p: Pass, r: RequestId) {
    r in w.journal.rows && CoveredRow(p.facts.(retained := p.facts.retained + w.pins), w.journal.rows[r])
  }

  /** A queued request that ended, and that nothing but the queue would have brought back to the pass. */
  ghost predicate OnlyQueued(w: World, p: Pass, r: RequestId) {
    && r in p.associated && r in p.key.associated && r !in w.associated && r in w.journal.rows
    && !HeldWithPins(w, p, r) && r !in Ahead(w, p) && !Undelivered(w, p, r)
  }

  /**
   When reconciling is faithful: the walk has room for the recipes that are registered now, or
   no request that ended was known from the queue alone, or another connection wrote the journal,
   so that the pass cannot prove anything any more.
   */
  ghost predicate Reconciles(w: World, p: Pass) {
    || !Overfull(w, p)
    || p.key.checkpoint.external != w.journal.external
    || forall r :: r in p.associated * p.key.associated - w.associated ==> !OnlyQueued(w, p, r)
  }

  /** What reconciling keeps of the queue and the facts, whether or not the walk had room. */
  lemma SyncParts(w: World, p: Pass, os: Os)
    requires Stale(w, p)
    ensures var q := Sync(w, p, os).pass;
            && q.key.checkpoint == p.key.checkpoint
            && q.key.associated == (if Overfull(w, p) then p.key.associated else w.associated)
            && q.associated == (p.associated + (w.associated - p.key.associated)) * w.associated
            && q.facts == p.facts.(retained := p.facts.retained + w.pins)
            && q.scanned == p.scanned && q.cursor == p.cursor
    ensures var q := Sync(w, p, os).pass;
            && Ahead(w, q) == Ahead(w, p)
            && (forall r :: Undelivered(w, q, r) <==> Undelivered(w, p, r))
            && (forall r :: Covered(w, q, r) <==> HeldWithPins(w, p, r))
  {
  }

  /** Coverage survives a reconciliation exactly then. */
  lemma SyncCoverage(w: World, p: Pass, os: Os)
    requires Coverage(w, p) && Stale(w, p)
    ensures Coverage(w, Sync(w, p, os).pass) <==> Reconciles(w, p)
  {
    SyncParts(w, p, os);
    var q := Sync(w, p, os).pass;
    assert forall r :: Covered(w, p, r) ==> HeldWithPins(w, p, r);
    if Reconciles(w, p) && p.key.checkpoint.external == w.journal.external {
      forall r | r in w.journal.rows
        ensures !Reclaimable(w.journal.rows[r]) ==> Covered(w, q, r) || r in Ahead(w, q) || Undelivered(w, q, r)
        ensures r in q.key.associated ==>
                  Covered(w, q, r) || r in Ahead(w, q) || Undelivered(w, q, r) || r in q.associated
      {
        assert r in p.associated * p.key.associated - w.associated ==> !OnlyQueued(w, p, r) || !Overfull(w, p);
      }
    }
    if !Reconciles(w, p) {
      var r :| r in p.associated * p.key.associated - w.associated && OnlyQueued(w, p, r);
      assert r in q.key.associated && r !in q.associated;
    }
  }

  /** Reconciling keeps the invariant exactly when it is faithful, however far a full walk got. */
  lemma ReconcilesExactly(w: World, p: Pass, os: Os)
    requires WorldOk(w) && PassOk(w, p)
    ensures PassOk(w, Sync(w, p, os).pass) <==> Reconciles(w, p)
  {
    if Stale(w, p) {
      RecheckOk(w.tree, p.physical);
      SyncCoverage(w, p, os);
      SyncWalked(w, p, os);
    }
  }

  lemma SyncKeeps(w: World, p: Pass, os: Os)
    requires WorldOk(w) && PassOk(w, p) && Reconciles(w, p)
    ensures PassOk(w, Sync(w, p, os).pass)
    ensures Sync(w, p, os).ok ==> Reconciled(w, Sync(w, p, os).pass)
  {
    ReconcilesExactly(w, p, os);
  }

  /** After a reconciliation the pass agrees with the world, or deletion is suspended. */
  ghost predicate Reconciled(w: World, p: Pass) {
    && p.key.registry == w.registry.generation && p.key.associated == w.associated && p.key.pins == w.pins
    && (p.physical.stage in {Verifying, Files, Directories} ==> ProofCurrent(w.journal, p.key.checkpoint))
  }

  lemma NewPassKeeps(w: World)
    requires WorldOk(w)
    ensures PassOk(w, NewPass(w)) && Reconciled(w, NewPass(w))
  {
    BeginOk(w.tree);
  }

  /** The parts of the invariant that survive any growth of the facts under an unchanged proof state. */
  lemma GrownWalk(w: World, p: Pass, q: Pass)
    requires Walked(w, p) && q.live == p.live && q.key.registry == p.key.registry
    requires p.facts.retained <= q.facts.retained
    ensures Walked(w, q)
  {
    if p.live.Some? {
      assert forall d :: d in w.registry.entries && Reached(p, d, w.registry.entries[d]) ==>
               Reached(q, d, w.registry.entries[d]);
    }
  }

  /** Projecting a row: the facts grow, and a row that protects its materials becomes covered. */
  lemma ProjectKeeps(w: World, p: Pass, r: RequestId)
    requires WorldOk(w) && PassOk(w, p) && p.physical.stage == AwaitingProof && r in w.journal.rows
    requires ProjectRow(w, p, r).Ok?
    ensures var q := ProjectRow(w, p, r).value;
            && q == p.(associated := p.associated - {r}, facts := q.facts, retire := q.retire)
            && p.facts.retained <= q.facts.retained && p.facts.interpreters <= q.facts.interpreters
            && (!Reclaimable(w.journal.rows[r]) || r in p.key.associated ==> Covered(w, q, r))
            && Walked(w, q) && Closed(q.facts)
  {
    var q := ProjectRow(w, p, r).value;
    var x := FactOf(w, p, r);
    GrowClosed(p.facts, x, p.physical.entries.Keys);
    assert q.facts == Grow(p.facts, x, p.physical.entries.Keys);
    GrownWalk(w, p, q);
  }

  lemma ScanKeeps(w: World, p: Pass)
    requires WorldOk(w) && PassOk(w, p) && p.physical.stage == AwaitingProof && !p.scanned
    requires Scan(w, p).Ok?
    ensures PassOk(w, Scan(w, p).value)
  {
    var q := Scan(w, p).value;
    var ahead := Ahead(w, p);
    if ahead == {} {
      GrownWalk(w, p, q);
      CoverageMoves(w, p, q, None);
    } else {
      ScanRow(w, p, Least(ahead));
    }
  }

  lemma ScanRow(w: World, p: Pass, r: RequestId)
    requires WorldOk(w) && PassOk(w, p) && p.physical.stage == AwaitingProof && !p.scanned
    requires r in Ahead(w, p) && (forall o :: o in Ahead(w, p) ==> r <= o)
    requires ProjectRow(w, p, r).Ok?
    ensures PassOk(w, ProjectRow(w, p, r).value.(cursor := Some(r)))
  {
    ProjectKeeps(w, p, r);
    var mid := ProjectRow(w, p, r).value;
    var q := mid.(cursor := Some(r));
    assert Covered(w, mid, r) ==> Covered(w, q, r);
    assert forall o :: Undelivered(w, p, o) ==> Undelivered(w, q, o);
    assert forall o :: o in Ahead(w, p) && o != r ==> o in Ahead(w, q);
    CoverageMoves(w, p, q, Some(r));
    GrownWalk(w, mid, q);
  }

  /** Coverage carries over when only the projected request leaves the pending sets. */
  lemma CoverageMoves(w: World, p: Pass, q: Pass, r: Option<RequestId>)
    requires Coverage(w, p) && q.key.associated == p.key.associated
        && q.key.checkpoint.external >= p.key.checkpoint.external
    requires p.key.checkpoint.external <= w.journal.external
    requires q.key.checkpoint.external == w.journal.external ==> p.key.checkpoint.external == w.journal.external
    requires p.facts.retained <= q.facts.retained && p.facts.interpreters <= q.facts.interpreters
    requires (r.Some? && r.value in w.journal.rows
              && (!Reclaimable(w.journal.rows[r.value]) || r.value in p.key.associated)) ==> Covered(w, q, r.value)
    requires forall o :: o in Ahead(w, p) && Some(o) != r ==> o in Ahead(w, q)
    requires forall o :: o in p.associated && o in w.journal.rows && Some(o) != r ==> o in q.associated
    requires forall o :: Undelivered(w, p, o) && o in w.journal.rows && Some(o) != r ==> Undelivered(w, q, o)
    ensures Coverage(w, q)
  {
    if q.key.checkpoint.external == w.journal.external {
      forall o | o in w.journal.rows
        ensures !Reclaimable(w.journal.rows[o]) ==> Covered(w, q, o) || o in Ahead(w, q) || Undelivered(w, q, o)
        ensures o in q.key.associated ==>
                  Covered(w, q, o) || o in Ahead(w, q) || Undelivered(w, q, o) || o in q.associated
      {
        assert Covered(w, p, o) ==> Covered(w, q, o);
      }
    }
  }

  lemma AssociatedKeeps(w: World, p: Pass, r: RequestId)
    requires WorldOk(w) && PassOk(w, p) && p.physical.stage == AwaitingProof && r in w.journal.rows
    requires ProjectRow(w, p, r).Ok?
    ensures PassOk(w, ProjectRow(w, p, r).value)
  {
    var q := ProjectRow(w, p, r).value;
    ProjectKeeps(w, p, r);
    CoverageMoves(w, p, q, Some(r));
  }

  lemma ChangesKeep(w: World, p: Pass)
    requires WorldOk(w) && PassOk(w, p) && p.physical.stage == AwaitingProof
    requires Changes(w, p).Ok?
    ensures var q := Changes(w, p).value.pass;
            && PassOk(w, q) && q.physical == p.physical && q.scanned == p.scanned && q.associated <= p.associated
            && q.key.associated == p.key.associated && q.key.registry == p.key.registry && q.key.pins == p.key.pins
            && (!Changes(w, p).value.more ==> q.key.checkpoint == CheckpointOf(w.journal))
  {
    var j, c := w.journal, p.key.checkpoint;
    var q := Changes(w, p).value.pass;
    if c.receipt == |j.receipts| {
      CoverageMoves(w, p, q, None);
      GrownWalk(w, p, q);
    } else {
      var receipt := j.receipts[c.receipt];
      var item := !receipt.trust && receipt.request in j.rows;
      if item {
        ProjectKeeps(w, p, receipt.request);
      }
      var moved := if item then Some(receipt.request) else None;
      forall o | Undelivered(w, p, o) && o in j.rows && Some(o) != moved
        ensures Undelivered(w, q, o)
      {
        var i :| c.receipt <= i < |j.receipts| && j.receipts[i] == Receipt(o, false);
        assert i != c.receipt;
        assert q.key.checkpoint.receipt == c.receipt + 1;
      }
      assert item ==> (!Reclaimable(j.rows[receipt.request]) || receipt.request in p.key.associated ==>
                         Covered(w, q, receipt.request));
      CoverageMoves(w, p, q, moved);
      GrownWalk(w, p, q);
    }
  }

  /** A retirement only drops a recipe, and moves the pass's own registry count along. */
  lemma RetireFields(w: World, p: Pass)
    requires p.retire != {}
    ensures var m := Retire(w, p);
            && m.world == w.(registry := m.world.registry)
            && m.world.registry.generation == m.pass.key.registry
            && m.world.registry.nextAlloc == w.registry.nextAlloc
            && (forall d :: d in m.world.registry.entries ==> d in w.registry.entries
                                                              && m.world.registry.entries[d] == w.registry.entries[d])
            && m.pass.facts == p.facts && m.pass.live == p.live && m.pass.physical == p.physical
            && m.pass.associated == p.associated && m.pass.scanned == p.scanned && m.pass.cursor == p.cursor
            && m.pass.key == p.key.(registry := m.pass.key.registry)
  {
  }

  lemma RetireCoverage(w: World, p: Pass)
    requires Coverage(w, p) && p.retire != {}
    ensures Coverage(Retire(w, p).world, Retire(w, p).pass)
  {
    RetireFields(w, p);
    var m := Retire(w, p);
    var q := m.pass;
    assert Ahead(m.world, q) == Ahead(w, p);
    forall r | r in w.journal.rows
      ensures (Covered(w, p, r) <==> Covered(m.world, q, r)) && (Undelivered(w, p, r) <==> Undelivered(m.world, q, r))
    {
    }
  }

  lemma RetireWalk(w: World, p: Pass)
    requires WorldOk(w) && Walked(w, p) && Reconciled(w, p) && p.retire != {}
    ensures Walked(Retire(w, p).world, Retire(w, p).pass)
  {
    RetireFields(w, p);
    var q := Retire(w, p).pass;
    if p.live.Some? {
      assert forall d :: d in w.registry.entries && Reached(p, d, w.registry.entries[d]) ==>
               Reached(q, d, w.registry.entries[d]);
    }
  }

  lemma RetireKeeps(w: World, p: Pass)
    requires WorldOk(w) && PassOk(w, p) && Reconciled(w, p) && p.physical.stage == AwaitingProof && p.retire != {}
    ensures var m := Retire(w, p); WorldOk(m.world) && PassOk(m.world, m.pass)
    ensures Retire(w, p).world.tree == w.tree
  {
    RetireFields(w, p);
    RetireCoverage(w, p);
    RetireWalk(w, p);
  }

  /** The walk of a settling pass, begun if this is the first time. */
  lemma BegunWalk(w: World, p: Pass)
    requires WorldOk(w) && Walked(w, p) && Reconciled(w, p)
    ensures var live := if p.live.Some? then p.live.value
                        else Refresh(w.registry, Walk({}, {}), w.registry.entries.Keys);
            Walked(w, p.(live := Some(live)))
  {
    if p.live.None? {
      var none := p.(live := Some(Walk({}, {})), key := p.key.(registry := 0));
      var q := p.(live := Some(Refresh(w.registry, Walk({}, {}), w.registry.entries.Keys)));
      forall d | d in w.registry.entries && w.registry.entries[d].alloc in q.live.value.seen
        ensures Reached(q, d, w.registry.entries[d])
      {
        var recipe := w.registry.entries[d];
        assert forall i :: 0 <= i < |recipe.paths| ==>
                 Coord(d, recipe.alloc, i) in Coords(w.registry, w.registry.entries.Keys, {});
      }
    }
  }

  /** The walk as a settling pass goes on with it. */
  function WalkOf(w: World, p: Pass): Walk {
    if p.live.Some? then p.live.value else Refresh(w.registry, Walk({}, {}), w.registry.entries.Keys)
  }

  lemma SettleWalks(w: World, p: Pass, os: Os)
    requires WorldOk(w) && PassOk(w, p) && Reconciled(w, p) && p.physical.stage == AwaitingProof
    requires Settle(w, p, os).Ok? && WalkOf(w, p).todo != {}
    ensures PassOk(w, Settle(w, p, os).value)
  {
    BegunWalk(w, p);
    WalkStep(w, p.(live := Some(WalkOf(w, p))), WalkOf(w, p).todo * os.coords);
    CoverageMoves(w, p, Settle(w, p, os).value, None);
  }

  lemma SettleProves(w: World, p: Pass, os: Os)
    requires WorldOk(w) && PassOk(w, p) && Reconciled(w, p) && p.physical.stage == AwaitingProof
    requires p.scanned && p.associated == {} && p.key.checkpoint == CheckpointOf(w.journal)
    requires Settle(w, p, os).Ok? && WalkOf(w, p).todo == {}
    ensures PassOk(w, Settle(w, p, os).value)
  {
    var q := Settle(w, p, os).value;
    BegunWalk(w, p);
    ProveOk(w.tree, p.physical, p.facts.candidates, p.facts.retained);
    GrownWalk(w, p.(live := Some(WalkOf(w, p))), q);
    CoverageMoves(w, p, q, None);
    AllCovered(w, p, q);
  }

  lemma SettleKeeps(w: World, p: Pass, os: Os)
    requires WorldOk(w) && PassOk(w, p) && Reconciled(w, p) && p.physical.stage == AwaitingProof
    requires p.scanned && p.associated == {} && p.key.checkpoint == CheckpointOf(w.journal)
    requires Settle(w, p, os).Ok?
    ensures PassOk(w, Settle(w, p, os).value)
  {
    if WalkOf(w, p).todo != {} {
      SettleWalks(w, p, os);
    } else {
      SettleProves(w, p, os);
    }
  }

  /** Once everything queued and delivered is folded in, what protects its materials is covered. */
  lemma AllCovered(w: World, p: Pass, q: Pass)
    requires Coverage(w, p) && Ordered(w, p) && p.scanned && p.associated == {}
        && p.key.checkpoint == CheckpointOf(w.journal)
    requires q.facts == p.facts && q.key.associated == p.key.associated
    ensures forall r :: r in w.journal.rows && (!Reclaimable(w.journal.rows[r]) || r in q.key.associated) ==>
        Covered(w, q, r)
  {
    forall r | r in w.journal.rows && (!Reclaimable(w.journal.rows[r]) || r in q.key.associated)
      ensures Covered(w, q, r)
    {
      assert !Undelivered(w, p, r) && r !in Ahead(w, p);
      assert Covered(w, p, r);
    }
  }

  lemma WalkStep(w: World, p: Pass, picked: set<Coord>)
    requires WorldOk(w) && Walked(w, p) && p.live.Some? && picked <= p.live.value.todo
    ensures Walked(w, p.(facts := p.facts.(retained := p.facts.retained + Visit(w.registry, picked)),
                         live := Some(p.live.value.(todo := p.live.value.todo - picked))))
  {
    var q := p.(facts := p.facts.(retained := p.facts.retained + Visit(w.registry, picked)),
                live := Some(p.live.value.(todo := p.live.value.todo - picked)));
    forall d | d in w.registry.entries && w.registry.entries[d].alloc in q.live.value.seen
      ensures Reached(q, d, w.registry.entries[d])
    {
      var recipe := w.registry.entries[d];
      assert Reached(p, d, recipe);
      forall i | 0 <= i < |recipe.paths|
        ensures Coord(d, recipe.alloc, i) in q.live.value.todo || recipe.paths[i] in q.facts.retained
      {
        var c := Coord(d, recipe.alloc, i);
        if c in picked {
          assert Alive(w.registry, c);
          assert w.registry.entries[c.digest].paths[c.index] in Visit(w.registry, picked);
        }
      }
    }
  }

  lemma AwaitKeeps(w: World, p: Pass, os: Os)
    requires WorldOk(w) && PassOk(w, p) && Reconciled(w, p) && p.physical.stage == AwaitingProof
    requires Await(w, p, os).Ok?
    ensures var m := Await(w, p, os).value; WorldOk(m.world) && PassOk(m.world, m.pass) && m.world.tree == w.tree
  {
    if !p.scanned {
      ScanKeeps(w, p);
    } else if p.associated != {} {
      AssociatedKeeps(w, p, Least(p.associated));
    } else {
      ChangesKeep(w, p);
      var delta := Changes(w, p).value;
      var q := delta.pass;
      if !delta.more {
        if q.retire != {} {
          RetireKeeps(w, q);
        } else {
          SettleKeeps(w, q, os);
        }
      }
    }
  }

  /** Only names leave the tree, so nothing the journal or the registry promises changes. */
  lemma DeleteKeeps(w: World, p: Pass, os: Os)
    requires WorldOk(w) && PassOk(w, p) && p.physical.stage in {Files, Directories}
    requires Delete(w, p, os).Ok?
    ensures var m := Delete(w, p, os).value; WorldOk(m.world) && PassOk(m.world, m.pass)
  {
    DeleteOk(w.tree, p.physical, os);
    var m := Delete(w, p, os).value;
    var q := m.pass;
    assert Ahead(m.world, q) == Ahead(w, p);
    forall r | r in w.journal.rows
      ensures (Covered(w, p, r) <==> Covered(m.world, q, r)) && (Undelivered(w, p, r) <==> Undelivered(m.world, q, r))
    {
    }
    assert Coverage(m.world, q);
    GrownWalk(w, p, q);
    assert Walked(m.world, q);
    assert Proved(m.world, q);
  }

  lemma PhysicalMoves(w: World, p: Pass, ph: Physical)
    requires WorldOk(w) && PassOk(w, p) && PhysicalOk(w.tree, ph)
    requires ph.retained == p.physical.retained && ph.candidates == p.physical.candidates
    requires ph.stage in {Verifying, Files, Directories} ==> p.physical.stage in {Verifying, Files, Directories}
    requires ph.stage == Inventory ==> p.physical.stage == Inventory
    ensures PassOk(w, p.(physical := ph))
  {
    var q := p.(physical := ph);
    GrownWalk(w, p, q);
    CoverageMoves(w, p, q, None);
    assert forall r :: Covered(w, p, r) ==> Covered(w, q, r);
  }

  lemma AdvanceKeeps(w: World, p: Pass, os: Os)
    requires WorldOk(w) && PassOk(w, p) && Reconciled(w, p)
    requires Advance(w, p, os).Ok?
    ensures var m := Advance(w, p, os).value; WorldOk(m.world) && PassOk(m.world, m.pass)
  {
    match p.physical.stage
    case AwaitingProof => AwaitKeeps(w, p, os);
    case Files => DeleteKeeps(w, p, os);
    case Directories => DeleteKeeps(w, p, os);
    case Complete =>
    case Inventory =>
      InventoryOk(w.tree, p.physical, os);
      PhysicalMoves(w, p, InventoryStep(w.tree, p.physical, os).value);
    case Verifying =>
      VerifyOk(w.tree, p.physical, os);
      PhysicalMoves(w, p, VerifyStep(w.tree, p.physical, os).value);
  }

  // ------------------------------------------------------------- the theorem

  datatype State = State(world: World, gc: Gc)

  /** Nothing the world still needs goes with the name `p`. */
  ghost predicate SafeRemoval(w: World, p: Path) {
    && (forall q :: Needed(w, q) ==> !Harms(w.tree, p, q))
    && (p in w.tree.names && w.tree.names[p].File? && !PendingName(p) ==>
          && w.tree.names[p].id in w.tree.contents
          && !NeededInterpreter(w, w.tree.contents[w.tree.names[p].id]))
  }

  ghost predicate Moves(s: State, os: Os, t: State) {
    var o := Step(s.world, s.gc, os); t == State(o.world, o.gc)
  }

  /** A step whose reconciliation, if there is a pass, is faithful. */
  ghost predicate GcStep(s: State, os: Os, t: State) {
    Moves(s, os, t) && (s.gc.pass.Some? ==> Reconciles(s.world, s.gc.pass.value))
  }

  ghost predicate EnvStep(s: State, a: EnvAction, t: State) {
    Enabled(s.world, a) && t == State(Apply(s.world, a), s.gc)
  }

  ghost predicate Next(s: State, t: State) {
    (exists os :: GcStep(s, os, t)) || (exists a :: EnvStep(s, a, t))
  }

  ghost predicate Run(run: seq<State>) {
    && run != [] && WorldOk(run[0].world) && run[0].gc == Gc(None, None)
    && forall i :: 0 < i < |run| ==> Next(run[i - 1], run[i])
  }

  /** What a proved, current pass deletes is safe to delete. */
  lemma DeletesSafely(w: World, p: Pass, os: Os, x: Path)
    requires WorldOk(w) && PassOk(w, p) && Reconciled(w, p)
    requires x in Gone(w.tree, p.physical, os)
    ensures SafeRemoval(w, x)
  {
    forall q | Needed(w, q)
      ensures !Harms(w.tree, x, q)
    {
      NeededRetained(w, p, q);
      if p.physical.stage == Files {
        DeletableSpares(w.tree, p.physical, x, q);
      } else {
        RemovableSpares(w.tree, p.physical, x, q);
      }
    }
    if w.tree.names[x].File? && !PendingName(x) {
      var d := w.tree.contents[w.tree.names[x].id];
      assert x in p.physical.candidates && p.physical.candidates[x] == d;
      if NeededInterpreter(w, d) {
        var r :| Protects(w, r) && d in w.journal.rows[r].input.interpreters;
        assert Covered(w, p, r);
        assert x in p.physical.retained;
        DeletableSpares(w.tree, p.physical, x, x);
      }
    }
  }

  lemma NeededRetained(w: World, p: Pass, q: Path)
    requires WorldOk(w) && PassOk(w, p) && Reconciled(w, p) && p.physical.stage in {Verifying, Files, Directories}
    requires Needed(w, q)
    ensures q in p.physical.retained
  {
    if exists r :: Protects(w, r) && w.journal.rows[r].input.references.Some?
                   && q in w.journal.rows[r].input.references.value {
      var r :| Protects(w, r) && w.journal.rows[r].input.references.Some?
               && q in w.journal.rows[r].input.references.value;
      assert Covered(w, p, r);
    } else if exists d :: d in w.registry.entries && q in w.registry.entries[d].paths {
      var d :| d in w.registry.entries && q in w.registry.entries[d].paths;
      var i :| 0 <= i < |w.registry.entries[d].paths| && w.registry.entries[d].paths[i] == q;
      assert Reached(p, d, w.registry.entries[d]);
    }
  }

  lemma StepKeeps(s: State, os: Os, t: State)
    requires Inv(s.world, s.gc) && GcStep(s, os, t)
    ensures Inv(t.world, t.gc)
    ensures forall x :: x in s.world.tree.names && x !in t.world.tree.names ==> SafeRemoval(s.world, x)
  {
    var w, g := s.world, s.gc;
    if g.pass.Some? {
      SyncKeeps(w, g.pass.value, os);
    }
    if !(g.pass.Some? && !Sync(w, g.pass.value, os).ok) && !(g.pass.None? && g.completed == Some(KeyOf(w))) {
      NewPassKeeps(w);
      var p := if g.pass.Some? then Sync(w, g.pass.value, os).pass else NewPass(w);
      if Advance(w, p, os).Ok? {
        AdvanceKeeps(w, p, os);
        AdvanceSafe(w, p, os);
      }
    }
  }

  lemma AdvanceSafe(w: World, p: Pass, os: Os)
    requires WorldOk(w) && PassOk(w, p) && Reconciled(w, p)
    requires Advance(w, p, os).Ok?
    ensures var u := Advance(w, p, os).value.world;
            forall x :: x in w.tree.names && x !in u.tree.names ==> SafeRemoval(w, x)
  {
    var u := Advance(w, p, os).value.world;
    if p.physical.stage == AwaitingProof {
      AwaitKeeps(w, p, os);
    }
    forall x | x in w.tree.names && x !in u.tree.names
      ensures SafeRemoval(w, x)
    {
      DeletesSafely(w, p, os, x);
    }
  }

  lemma {:induction false} RunInvariant(run: seq<State>, n: nat)
    requires Run(run) && n < |run|
    ensures Inv(run[n].world, run[n].gc)
  {
    if n > 0 {
      RunInvariant(run, n - 1);
      var s, t := run[n - 1], run[n];
      assert Next(s, t);
      if exists os :: GcStep(s, os, t) {
        var os :| GcStep(s, os, t);
        StepKeeps(s, os, t);
      } else {
        var a :| EnvStep(s, a, t);
        EnvKeeps(s.world, a, s.gc);
      }
    }
  }

  /**
   Whole-run safety: in every run, whatever changes between the steps, a name the collector
   removes harms no pin, no coordinate of an unsettled, undelivered or communicating request,
   no registered recipe, and holds no interpreter of such a request.
   */
  lemma RunsAreSafe(run: seq<State>, n: nat, os: Os, x: Path)
    requires Run(run) && n + 1 < |run| && GcStep(run[n], os, run[n + 1])
    requires x in run[n].world.tree.names && x !in run[n + 1].world.tree.names
    ensures SafeRemoval(run[n].world, x)
  {
    RunInvariant(run, n);
    StepKeeps(run[n], os, run[n + 1]);
  }
}
