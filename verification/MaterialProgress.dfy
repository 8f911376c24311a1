/**
 Progress of the collector. With no outside change every step of a pass that awaits its proof
 drains one of five queues, in lexicographic order: history rows, newly associated requests,
 receipt deltas, retirements, recipe coordinates.
 */
module MaterialProgress {
  import opened MaterialWorld
  import opened MaterialProjection
  import opened MaterialReclaim
  import opened MaterialGc
  import opened MaterialSafety

  /** The operating system's choices, as a function of what a step meets. */
  type Schedule = (World, Pass) -> Os

  /** A walk with coordinates left visits at least one of them. */
  ghost predicate Progresses(sched: Schedule) {
    forall w, p :: Advances(w, p, sched(w, p))
  }

  ghost predicate Advances(w: World, p: Pass, os: Os) {
    Pending(w, p) != {} ==> exists e :: e in Pending(w, p) && e in os.coords
  }

  /** Recipe coordinates the walk of this pass still has to visit. */
  function Pending(w: World, p: Pass): set<Coord> {
    if p.live.Some? then p.live.value.todo else Coords(w.registry, w.registry.entries.Keys, {})
  }

  function Rows(w: World, p: Pass): nat {
    if p.scanned then 0 else |Ahead(w, p)| + 1
  }

  function Deltas(w: World, p: Pass): nat {
    if p.key.checkpoint.receipt <= |w.journal.receipts| then |w.journal.receipts| - p.key.checkpoint.receipt else 0
  }

  /** The five queues of a waiting pass, in the order they drain. */
  datatype Rank = Rank(rows: nat, associated: nat, deltas: nat, retire: nat, coords: nat)

  function RankOf(w: World, p: Pass): Rank {
    Rank(Rows(w, p), |p.associated|, Deltas(w, p), |p.retire|, |Pending(w, p)|)
  }

  predicate Below(a: Rank, b: Rank) {
    || a.rows < b.rows
    || (a.rows == b.rows && a.associated < b.associated)
    || (a.rows == b.rows && a.associated == b.associated && a.deltas < b.deltas)
    || (a.rows == b.rows && a.associated == b.associated && a.deltas == b.deltas && a.retire < b.retire)
    || (a.rows == b.rows && a.associated == b.associated && a.deltas == b.deltas && a.retire == b.retire
        && a.coords < b.coords)
  }

  predicate Drained(w: World, p: Pass, u: World, q: Pass) {
    Below(RankOf(u, q), RankOf(w, p))
  }

  /** The pass agrees with the world in everything but its journal checkpoint. */
  ghost predicate Quiet(w: World, p: Pass) {
    && p.key.root == w.tree.generation && p.key.registry == w.registry.generation
    && p.key.associated == w.associated && p.key.pins == w.pins
  }

  ghost predicate Waiting(g: Gc) {
    g.pass.Some? && g.pass.value.physical.stage == AwaitingProof
  }

  lemma SmallerSet<T>(a: set<T>, b: set<T>, x: T)
    requires a <= b && x in b && x !in a
    ensures |a| < |b|
  {
    Smaller(a, b - {x});
    assert b == (b - {x}) + {x};
  }

  lemma ScanDrains(w: World, p: Pass, os: Os)
    requires Quiet(w, p) && p.physical.stage == AwaitingProof && !p.scanned && Scan(w, p).Ok?
    ensures var q := Scan(w, p).value; Quiet(w, q) && Drained(w, p, w, q)
  {
    var q := Scan(w, p).value;
    var ahead := Ahead(w, p);
    if ahead != {} {
      SmallerSet(Ahead(w, q), ahead, Least(ahead));
    }
  }

  lemma DeltaDrains(w: World, p: Pass)
    requires Quiet(w, p) && p.scanned && p.associated == {} && Changes(w, p).Ok?
    ensures var delta := Changes(w, p).value; var q := delta.pass;
            && Quiet(w, q) && q.scanned && q.associated == {} && q.physical.stage == p.physical.stage
            && (delta.more ==> Drained(w, p, w, q))
            && (!delta.more && Deltas(w, p) == 0 ==> q == p.(key := p.key.(checkpoint := CheckpointOf(w.journal))))
            && (!delta.more && Deltas(w, p) != 0 ==> Deltas(w, q) < Deltas(w, p))
            && (!delta.more ==> Deltas(w, q) == 0)
  {
  }

  lemma RetireDrains(w: World, p: Pass)
    requires Quiet(w, p) && p.retire != {}
    ensures var m := Retire(w, p);
            && Quiet(m.world, m.pass) && |m.pass.retire| < |p.retire|
            && Rows(m.world, m.pass) == Rows(w, p) && m.pass.associated == p.associated
            && Deltas(m.world, m.pass) == Deltas(w, p) && m.pass.physical == p.physical
  {
    SmallerSet(p.retire - {Least(p.retire)}, p.retire, Least(p.retire));
    var m := Retire(w, p);
    assert Ahead(m.world, m.pass) == Ahead(w, p);
  }

  /** The pass's own retirement is not mistaken for an outside change. */
  lemma OwnRetirementIsQuiet(w: World, p: Pass)
    requires Quiet(w, p) && ProofCurrent(w.journal, p.key.checkpoint) && p.retire != {}
    ensures !Stale(Retire(w, p).world, Retire(w, p).pass)
  {
  }

  lemma SettleDrains(w: World, p: Pass, os: Os)
    requires Quiet(w, p) && p.physical.stage == AwaitingProof && Settle(w, p, os).Ok?
    requires Advances(w, p, os)
    ensures var q := Settle(w, p, os).value;
            && Quiet(w, q) && q.retire == p.retire && q.associated == p.associated && q.scanned == p.scanned
            && q.cursor == p.cursor && q.key == p.key
            && (q.physical.stage != AwaitingProof || |Pending(w, q)| < |Pending(w, p)|)
  {
    var live := if p.live.Some? then p.live.value else Refresh(w.registry, Walk({}, {}), w.registry.entries.Keys);
    assert live.todo == Pending(w, p);
    if live.todo != {} {
      var e :| e in Pending(w, p) && e in os.coords;
      SmallerSet(live.todo - live.todo * os.coords, live.todo, e);
    }
  }

  lemma AssociatedDrains(w: World, p: Pass, r: RequestId)
    requires Quiet(w, p) && p.scanned && r in p.associated && r in w.journal.rows && ProjectRow(w, p, r).Ok?
    ensures var q := ProjectRow(w, p, r).value; Quiet(w, q) && Drained(w, p, w, q)
  {
    var q := ProjectRow(w, p, r).value;
    SmallerSet(q.associated, p.associated, r);
  }

  lemma AwaitDrains(w: World, p: Pass, os: Os)
    requires Quiet(w, p) && p.physical.stage == AwaitingProof && Await(w, p, os).Ok?
    requires Advances(w, p, os)
    ensures var m := Await(w, p, os).value;
            m.pass.physical.stage != AwaitingProof || (Quiet(m.world, m.pass) && Drained(w, p, m.world, m.pass))
  {
    if !p.scanned {
      ScanDrains(w, p, os);
    } else if p.associated != {} {
      AssociatedDrains(w, p, Least(p.associated));
    } else {
      DeltaDrains(w, p);
      var delta := Changes(w, p).value;
      var q := delta.pass;
      if !delta.more {
        if q.retire != {} {
          RetireDrains(w, q);
        } else {
          assert Pending(w, q) == Pending(w, p);
          SettleDrains(w, q, os);
        }
      }
    }
  }

  // ------------------------------------------------------------- quiet runs

  const IDLE := Os({}, {}, {}, {}, false, false)

  /** The pass as a step finds it after reconciliation. */
  function Ready(w: World, p: Pass): Pass {
    Sync(w, p, IDLE).pass
  }

  function QuietStep(s: State, sched: Schedule): State
    requires s.gc.pass.Some?
  {
    var o := Step(s.world, s.gc, sched(s.world, Ready(s.world, s.gc.pass.value)));
    State(o.world, o.gc)
  }

  /** `n` steps with no outside change; a pass that is gone stays gone. */
  function After(s: State, sched: Schedule, n: nat): State
    decreases n
  {
    if n == 0 || s.gc.pass.None? then s else After(QuietStep(s, sched), sched, n - 1)
  }

  lemma SyncOutcome(w: World, p: Pass, os: Os)
    ensures Sync(w, p, os).ok == Sync(w, p, IDLE).ok
    ensures Sync(w, p, os).ok ==> Sync(w, p, os) == Sync(w, p, IDLE) && Quiet(w, Ready(w, p))
  {
  }

  /** Reconciling a quiet pass changes nothing that the measure counts. */
  lemma QuietSync(w: World, p: Pass)
    requires Quiet(w, p) && p.physical.stage == AwaitingProof
    ensures Sync(w, p, IDLE).ok
    ensures var q := Ready(w, p);
            && Quiet(w, q) && q.physical.stage == AwaitingProof && q.associated <= p.associated
            && q.retire == p.retire && q.live == p.live && q.scanned == p.scanned && q.cursor == p.cursor
            && q.key == p.key
  {
  }

  /** A step with a clean reconciliation is the advance of the reconciled pass. */
  lemma SyncedStep(w: World, p: Pass, completed: Option<Key>, os: Os, q: Pass)
    requires Sync(w, p, os) == Synced(q, true)
    ensures var o := Step(w, Gc(Some(p), completed), os);
            match Advance(w, q, os)
            case Err(_) => o.gc.pass.None?
            case Ok(m) =>
              if m.pass.physical.stage == Complete then o.gc.pass.None?
              else o.world == m.world && o.gc.pass == Some(m.pass)
  {
  }

  lemma AdvanceDrains(w: World, q: Pass, os: Os)
    requires Quiet(w, q) && q.physical.stage == AwaitingProof && Advances(w, q, os) && Advance(w, q, os).Ok?
    ensures var m := Advance(w, q, os).value;
            m.pass.physical.stage != AwaitingProof || (Quiet(m.world, m.pass) && Drained(w, q, m.world, m.pass))
  {
    AwaitDrains(w, q, os);
  }

  /** One step of a waiting, reconcilable pass: it ends, leaves the stage, or drains its queues. */
  lemma StepDrains(s: State, sched: Schedule)
    requires Waiting(s.gc) && Progresses(sched) && Sync(s.world, s.gc.pass.value, IDLE).ok
    ensures var t := QuietStep(s, sched);
            Waiting(t.gc) ==> Quiet(t.world, t.gc.pass.value)
                              && Drained(s.world, Ready(s.world, s.gc.pass.value), t.world, t.gc.pass.value)
  {
    var w, p := s.world, s.gc.pass.value;
    var q := Ready(w, p);
    var os := sched(w, q);
    SyncOutcome(w, p, os);
    assert Advances(w, q, os);
    SyncedStep(w, p, s.gc.completed, os, q);
    if Advance(w, q, os).Ok? {
      AdvanceDrains(w, q, os);
    }
  }

  lemma QuietStepDrains(s: State, sched: Schedule)
    requires Waiting(s.gc) && Progresses(sched) && Quiet(s.world, s.gc.pass.value)
    ensures var t := QuietStep(s, sched);
            Waiting(t.gc) ==> Quiet(t.world, t.gc.pass.value)
                              && Drained(s.world, s.gc.pass.value, t.world, t.gc.pass.value)
  {
    var w, p := s.world, s.gc.pass.value;
    QuietSync(w, p);
    StepDrains(s, sched);
    var q := Ready(w, p);
    assert Ahead(w, q) == Ahead(w, p);
    assert Pending(w, q) == Pending(w, p);
    Smaller(q.associated, p.associated);
  }

  lemma AfterStep(s: State, sched: Schedule) returns (t: State)
    requires s.gc.pass.Some?
    ensures t == QuietStep(s, sched)
    ensures forall n: nat :: After(s, sched, n + 1) == After(t, sched, n)
  {
    t := QuietStep(s, sched);
  }

  lemma {:induction false} QuietLeaves(s: State, sched: Schedule, rank: Rank) returns (n: nat)
    requires Waiting(s.gc) && Progresses(sched) && Quiet(s.world, s.gc.pass.value)
    requires rank == RankOf(s.world, s.gc.pass.value)
    ensures !Waiting(After(s, sched, n).gc)
    decreases rank.rows, rank.associated, rank.deltas, rank.retire, rank.coords
  {
    var t, next := OneStep(s, sched, rank);
    n := 1;
    if Waiting(t.gc) {
      var m := QuietLeaves(t, sched, next);
      n := m + 1;
    }
  }

  /** One step as the recursion above uses it. */
  lemma OneStep(s: State, sched: Schedule, rank: Rank) returns (t: State, next: Rank)
    requires Waiting(s.gc) && Progresses(sched) && Quiet(s.world, s.gc.pass.value)
    requires rank == RankOf(s.world, s.gc.pass.value)
    ensures forall n: nat :: !Waiting(After(t, sched, n).gc) ==> !Waiting(After(s, sched, n + 1).gc)
    ensures !Waiting(t.gc) ==> !Waiting(After(s, sched, 1).gc)
    ensures Waiting(t.gc) ==> Quiet(t.world, t.gc.pass.value) && next == RankOf(t.world, t.gc.pass.value)
                              && Below(next, rank)
  {
    t := AfterStep(s, sched);
    QuietStepDrains(s, sched);
    next := if Waiting(t.gc) then RankOf(t.world, t.gc.pass.value) else rank;
    assert After(s, sched, 0 + 1) == After(t, sched, 0);
  }

  /** A walk too crowded to reconcile stays too crowded. */
  lemma CrowdedAgain(s: State, sched: Schedule)
    requires WorldOk(s.world) && Waiting(s.gc) && !Sync(s.world, s.gc.pass.value, IDLE).ok
    ensures var t := QuietStep(s, sched);
            && Waiting(t.gc) && t.world == s.world && !Sync(t.world, t.gc.pass.value, IDLE).ok
  {
    var w, p := s.world, s.gc.pass.value;
    var os := sched(w, Ready(w, p));
    SyncOutcome(w, p, os);
    var q := Sync(w, p, os).pass;
    var all := w.registry.entries.Keys;
    var some := os.partial * all;
    assert Refresh(w.registry, q.live.value, all).seen == Refresh(w.registry, p.live.value, all).seen by {
      var added := set d | d in some && d in w.registry.entries :: w.registry.entries[d].alloc;
      var total := set d | d in all && d in w.registry.entries :: w.registry.entries[d].alloc;
      assert forall d :: d in some ==> d in all;
      assert added <= total;
    }
  }

  /** Every step of a pass whose walk is overfull fails and leaves it where it is. */
  lemma {:induction false} CrowdedStays(s: State, sched: Schedule, n: nat)
    requires WorldOk(s.world) && Waiting(s.gc) && Overfull(s.world, s.gc.pass.value)
    ensures Waiting(After(s, sched, n).gc)
    decreases n
  {
    if n > 0 {
      SyncFits(s.world, s.gc.pass.value, IDLE);
      CrowdedAgain(s, sched);
      var t := QuietStep(s, sched);
      SyncFits(t.world, t.gc.pass.value, IDLE);
      CrowdedStays(t, sched, n - 1);
    }
  }

  /**
   Progress, exactly: with no outside change a waiting pass leaves its stage in finitely many
   steps if and only if its walk has room for the recipes that are registered. Otherwise every
   step fails while reconciling and the pass is neither advanced nor dropped.
   */
  lemma LeavesExactly(s: State, sched: Schedule)
    requires WorldOk(s.world) && Waiting(s.gc) && Progresses(sched)
    ensures !Overfull(s.world, s.gc.pass.value) <==> exists n :: !Waiting(After(s, sched, n).gc)
  {
    SyncFits(s.world, s.gc.pass.value, IDLE);
    if !Overfull(s.world, s.gc.pass.value) {
      StepDrains(s, sched);
      var t := AfterStep(s, sched);
      var n := 0;
      if Waiting(t.gc) {
        n := QuietLeaves(t, sched, RankOf(t.world, t.gc.pass.value));
      }
      assert !Waiting(After(s, sched, n + 1).gc);
    } else {
      forall n: nat
        ensures Waiting(After(s, sched, n).gc)
      {
        CrowdedStays(s, sched, n);
      }
    }
  }

  /** A first walk always has room: the registry never holds more than it may walk. */
  lemma FirstWalkFits(w: World)
    requires WorldOk(w)
    ensures !Crowded(Refresh(w.registry, Walk({}, {}), w.registry.entries.Keys))
  {
    AllocsCount(w.registry, w.registry.entries.Keys);
    var all := set d | d in w.registry.entries.Keys && d in w.registry.entries :: w.registry.entries[d].alloc;
    assert all == Allocs(w.registry, w.registry.entries.Keys);
    assert {} + all == all;
  }

  function Allocs(r: Registry, digests: set<Digest>): set<nat> {
    set d | d in digests && d in r.entries :: r.entries[d].alloc
  }

  lemma {:induction false} AllocsCount(r: Registry, digests: set<Digest>)
    requires digests <= r.entries.Keys
    ensures |Allocs(r, digests)| <= |digests|
    decreases |digests|
  {
    if digests != {} {
      var d :| d in digests;
      var rest := digests - {d};
      AllocsCount(r, rest);
      assert Allocs(r, digests) == Allocs(r, rest) + {r.entries[d].alloc} by {
        assert digests == rest + {d};
      }
    }
  }
}
