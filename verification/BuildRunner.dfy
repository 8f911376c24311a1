/**
 One runner of the build-slot pool, as its script goes through the steps of the protocol while
 every other runner does what it likes in between, and any of its own steps may fail.
 */
module BuildRunner {
  import opened BuildPool

  /** Steps that depend on nothing but where the runner itself stands. */
  predicate Own(a: Action) {
    !(a.Begin? || a.EnterPool? || a.WipeSome? || a.ClearSome? || a.FreeSlot? || a.FreeWork? || a.FreePool? || a.Die?)
  }

  lemma OwnStaysEnabled(s: State, t: State, p: Pid, a: Action)
    requires Own(a) && !a.Build? && p in s.procs && p in t.procs && t.procs[p] == s.procs[p] && Enabled(s, p, a)
    ensures Enabled(t, p, a)
  {
  }

  /** Steps after the scan, which move the runner the same way whatever the pool looks like. */
  predicate Blind(a: Action) {
    a.Choose? || a.Invalidate? || a.Drop? || a.LeavePool? || a.WipeDone? || a.FinishWiping? || a.ClearDone?
        || a.Make? || a.Name? || a.Return?
  }

  function Moved(me: Proc, a: Action): Proc
    requires Blind(a)
  {
    match a
    case Choose(c) => me.(pc := Chosen, pick := c)
    case Invalidate => me.(pc := Invalidated)
    case Drop => me.(pc := Dropped)
    case LeavePool => me.(pc := Wiping)
    case FinishWiping => me.(pc := Clearing)
    case ClearDone => me.(pc := Making)
    case Make => me.(pc := Naming)
    case Name(_) => me.(pc := Returning)
    case Return => me.(pc := Leased(true, true))
    case _ => me
  }

  lemma BlindMoves(s: State, p: Pid, a: Action)
    requires Blind(a) && Enabled(s, p, a)
    ensures Apply(s, p, a).procs[p] == Moved(s.procs[p], a)
  {
  }

  /** What the runner meets outside: other runners' steps before each of its own, and its own failures. */
  datatype Outside = Outside(others: nat -> seq<(Pid, Action)>, fails: nat -> bool, exists_: nat -> bool, time: nat)

  class Runner {
    const me: Pid
    const outside: Outside
    var pool: State
    ghost var run: seq<State>
    var calls: nat

    ghost predicate Valid()
      reads this
    {
      Run(run) && pool == run[|run| - 1] && me in pool.procs
    }

    function Self(): Proc
      requires me in pool.procs
      reads this
    {
      pool.procs[me]
    }

    /** Joins the processes as one that holds its worktree's lock. */
    constructor (me: Pid, outside: Outside, pool: State, ghost run: seq<State>, worktree: Worktree, slots: nat)
      requires Run(run) && pool == run[|run| - 1] && Enabled(pool, me, Begin(worktree, slots))
      ensures Valid() && Self().pc == Waiting && Self().worktree == worktree && Self().slots == slots
    {
      this.me, this.outside, calls := me, outside, 0;
      this.pool := Apply(pool, me, Begin(worktree, slots));
      this.run := run + [Apply(pool, me, Begin(worktree, slots))];
      new;
      assert Next(pool, this.pool);
    }

    /** One step of anybody. */
    method Step(p: Pid, a: Action)
      requires Valid() && Enabled(pool, p, a)
      modifies `pool, `run
      ensures Valid() && pool == Apply(old(pool), p, a)
    {
      ghost var before := pool;
      pool := Apply(pool, p, a);
      assert Next(before, pool);
      run := run + [pool];
    }

    /** Whatever the others do, and it is possible, happens; none of it is this runner's. */
    method Others()
      requires Valid()
      modifies `pool, `run, `calls
      ensures Valid() && Self() == old(Self())
    {
      var events := outside.others(calls);
      calls := calls + 1;
      var i := 0;
      while i < |events|
        invariant Valid() && Self() == old(Self())
      {
        var (p, a) := events[i];
        if p != me && Enabled(pool, p, a) {
          OtherKeepsMe(pool, p, a);
          Step(p, a);
        }
        i := i + 1;
      }
    }

    lemma OtherKeepsMe(s: State, p: Pid, a: Action)
      requires me in s.procs && p != me && Enabled(s, p, a)
      ensures me in Apply(s, p, a).procs && Apply(s, p, a).procs[me] == s.procs[me]
    {
    }

    /** The others' steps, then one of this runner's; a failure is the end of it. */
    method Do(a: Action) returns (ok: bool)
      requires Valid() && Own(a) && !a.Build? && Enabled(pool, me, a) && !Self().pc.Leased?
      modifies `pool, `run, `calls
      ensures Valid()
      ensures ok ==> exists s: State ::
          me in s.procs && s.procs[me] == old(Self()) && Enabled(s, me, a)
          && pool == Apply(s, me, a)
      ensures !ok ==> Self().pc == Dead
    {
      ghost var before := pool;
      Others();
      OwnStaysEnabled(before, pool, me, a);
      if outside.fails(calls) {
        Step(me, Die);
        return false;
      }
      ghost var s := pool;
      Step(me, a);
      ok := true;
      assert s.procs[me] == old(Self()) && Enabled(s, me, a) && pool == Apply(s, me, a);
    }

    method Move(a: Action) returns (ok: bool)
      requires Valid() && Blind(a) && Enabled(pool, me, a)
      modifies `pool, `run, `calls
      ensures Valid()
      ensures ok ==> Self() == Moved(old(Self()), a)
      ensures !ok ==> Self().pc == Dead
    {
      ok := Do(a);
      if ok {
        ghost var s: State :| me in s.procs && s.procs[me] == old(Self()) && Enabled(s, me, a)
            && pool == Apply(s, me, a);
        BlindMoves(s, me, a);
      }
    }

    /** Waits for the pool's lock, but not for ever. */
    method Enter(todo: seq<nat>, tries: nat) returns (ok: bool)
      requires Valid() && Self().pc == Waiting
      modifies `pool, `run, `calls
      ensures Valid()
      ensures ok ==> Self() == old(Self()).(pc := Scanning, todo := todo)
      ensures !ok ==> Self().pc == Dead
    {
      var i := 0;
      while i < tries
        invariant Valid() && Self() == old(Self())
      {
        Others();
        if pool.pool == None {
          Step(me, EnterPool(todo));
          return true;
        }
        i := i + 1;
      }
      Step(me, Die);
      ok := false;
    }

    /** One index: read its metadata, try its lock, and only then say what it is. */
    method Consider() returns (ok: bool)
      requires Valid() && Self().pc == Scanning && Self().todo != []
      modifies `pool, `run, `calls
      ensures Valid()
      ensures ok ==> Self().pc == Scanning && Self().todo == old(Self()).todo[1..]
      ensures ok ==> Self().worktree == old(Self()).worktree && Self().slots == old(Self()).slots
      ensures !ok ==> Self().pc == Dead
    {
      var index := Self().todo[0];
      ok := Do(ReadMeta);
      if ok {
        ok := Do(TryLock);
      }
      if ok && Self().pc.Locked? {
        ok := Do(Classify(outside.exists_(index)));
      }
    }

    /** The least candidate: own output, then an empty slot, then a vanished worktree's, then the oldest. */
    method Best(candidates: set<Candidate>) returns (pick: Candidate)
      requires candidates != {}
      ensures pick in candidates && forall d :: d in candidates ==> Before(pick, d)
    {
      pick :| pick in candidates;
      var todo := candidates - {pick};
      while todo != {}
        invariant pick in candidates && todo <= candidates
        invariant forall d :: d in candidates && d !in todo ==> Before(pick, d)
        decreases todo
      {
        var d :| d in todo;
        todo := todo - {d};
        if !Before(pick, d) {
          pick := d;
        }
      }
    }

    /** Picks a slot and lets go of everything else that only choosing needed. */
    method Pick() returns (ok: bool)
      requires Valid() && Self().pc == Scanning && Self().todo == []
      modifies `pool, `run, `calls
      ensures Valid()
      ensures ok ==> Self().pc == Wiping && Self().pick in old(Self()).candidates
      ensures ok ==> Self().worktree == old(Self()).worktree && Self().slots == old(Self()).slots
      ensures ok ==> Self().retired == old(Self()).retired
      ensures !ok ==> Self().pc == Dead
    {
      if Self().candidates == {} {
        Step(me, Die);
        return false;
      }
      var pick := Best(Self().candidates);
      ok := Move(Choose(pick));
      if ok {
        ok := Move(Invalidate);
      }
      if ok {
        ok := Move(Drop);
      }
      if ok {
        ok := Move(LeavePool);
      }
    }

    /** Empties the retired slots, then the picked one unless it is the runner's own, and names it. */
    method Prepare() returns (ok: bool)
      requires Valid() && Self().pc == Wiping
      modifies `pool, `run, `calls
      ensures Valid()
      ensures ok ==> Self() == old(Self()).(pc := Leased(true, true))
      ensures !ok ==> Self().pc == Dead
    {
      var todo := Self().retired;
      while todo != {}
        invariant Valid() && Self() == old(Self()) && todo <= Self().retired
        decreases todo
      {
        var i :| i in todo;
        todo := todo - {i};
        ok := Move(WipeDone(i));
        if !ok {
          return;
        }
      }
      ok := Move(FinishWiping);
      if ok {
        ok := Move(ClearDone);
      }
      if ok {
        ok := Move(Make);
      }
      if ok {
        ok := Move(Name(outside.time));
      }
      if ok {
        ok := Move(Return);
      }
    }

    /** Every index in turn, under the pool's lock. */
    method Scan() returns (ok: bool)
      requires Valid() && Self().pc == Scanning
      modifies `pool, `run, `calls
      ensures Valid()
      ensures ok ==> Self().pc == Scanning && Self().todo == []
      ensures ok ==> Self().worktree == old(Self()).worktree && Self().slots == old(Self()).slots
      ensures !ok ==> Self().pc == Dead
    {
      ok := true;
      while ok && Self().todo != []
        invariant Valid() && (ok ==> Self().pc == Scanning) && (!ok ==> Self().pc == Dead)
        invariant ok ==> Self().worktree == old(Self()).worktree && Self().slots == old(Self()).slots
        decreases ok, |Self().todo|
      {
        ok := Consider();
      }
    }

    lemma LeaseIsOwn()
      requires Valid() && Self().pc == Leased(true, true)
      ensures Leases(pool, me, Self().pick.index) && Self().pick.index < Self().slots
      ensures Names(pool, Self().pick.index, Self().worktree)
      ensures Content(pool, Self().pick.index) <= {Self().worktree}
    {
      RunInvariant(run, |run| - 1);
      assert LocksOk(pool, me, Self()) && BeliefsOk(pool, Self());
    }

    /**
     The whole allocation. However the others interleave, it ends with a lease of a slot that is
     named for this worktree and holds nobody else's output, or with no runner at all.
     */
    method AcquireSlot(todo: seq<nat>, tries: nat) returns (ok: bool, index: nat)
      requires Valid() && Self().pc == Waiting
      modifies `pool, `run, `calls
      ensures Valid()
      ensures ok ==> Leases(pool, me, index) && index < old(Self()).slots
      ensures ok ==> Names(pool, index, old(Self()).worktree) && Content(pool, index) <= {old(Self()).worktree}
      ensures !ok ==> Self().pc == Dead
    {
      index := 0;
      ok := Enter(todo, tries);
      if ok {
        ok := Scan();
      }
      if ok {
        ok := Pick();
      }
      if ok {
        ok := Prepare();
      }
      if ok {
        LeaseIsOwn();
        index := Self().pick.index;
      }
    }
  }
}
