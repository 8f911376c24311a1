/**
 The build-slot lease pool: any number of runners, each a separate process, share a directory
 of slots through advisory locks and small metadata files. A runner may die between any two
 system calls; its locks then go one by one, in any order.
 */
module BuildPool {

  datatype Option<+T> = None | Some(value: T)

  type Pid = nat
  type Worktree = string

  datatype Meta = Meta(worktree: Worktree, lastUsed: nat)

  /** A free slot as the allocator ranks it. */
  datatype Candidate = Candidate(rank: nat, lastUsed: nat, index: nat)

  /** Where a runner stands in `acquire_slot` and after it. */
  datatype Pc =
    | Waiting                          // holds its worktree lock, waits for the pool
    | Scanning                         // before the metadata read of the next index
    | Read(value: Option<Meta>)        // metadata read, slot lock not yet tried
    | Locked(value: Option<Meta>)      // slot lock taken, index not yet classified
    | Chosen | Invalidated | Dropped   // slot picked; metadata gone; other slots released
    | Wiping | Clearing | Making | Naming | Returning
    | Leased(runner: bool, child: bool)
    | Dead

  datatype Proc = Proc(worktree: Worktree, slots: nat, pc: Pc, todo: seq<nat>,
                       retired: set<nat>, candidates: set<Candidate>, pick: Candidate)

  /** `dirs` gives, per existing slot directory, the worktrees whose output is in it. */
  datatype State = State(meta: map<nat, Meta>, dirs: map<nat, set<Worktree>>,
                         pool: Option<Pid>, slot: map<nat, Pid>, work: map<Worktree, Pid>,
                         procs: map<Pid, Proc>)

  function Content(s: State, i: nat): set<Worktree> {
    if i in s.dirs then s.dirs[i] else {}
  }

  predicate Names(s: State, i: nat, w: Worktree) {
    i in s.meta && s.meta[i].worktree == w
  }

  function Lookup(s: State, i: nat): Option<Meta> {
    if i in s.meta then Some(s.meta[i]) else None
  }

  /** Own slot, empty slot, slot of a vanished worktree, any other slot. */
  function RankOf(value: Option<Meta>, w: Worktree, exists_: bool): nat {
    match value
    case None => 1
    case Some(m) => if m.worktree == w then 0 else if !exists_ then 2 else 3
  }

  predicate Before(a: Candidate, b: Candidate) {
    || a.rank < b.rank
    || (a.rank == b.rank && a.lastUsed < b.lastUsed)
    || (a.rank == b.rank && a.lastUsed == b.lastUsed && a.index <= b.index)
  }

  datatype Action =
    | Begin(worktree: Worktree, slots: nat)
    | EnterPool(todo: seq<nat>)
    | ReadMeta
    | TryLock
    | Classify(exists_: bool)
    | Choose(pick: Candidate)
    | Invalidate
    | Drop
    | LeavePool
    | WipeSome(index: nat, left: set<Worktree>)
    | WipeDone(index: nat)
    | FinishWiping
    | ClearSome(left: set<Worktree>)
    | ClearDone
    | Make
    | Name(time: nat)
    | Return
    | Build(content: Option<set<Worktree>>)
    | RunnerGone
    | ChildGone
    | Die
    | FreeSlot(index: nat)
    | FreeWork
    | FreePool

  predicate Live(s: State, p: Pid) {
    p in s.procs && s.procs[p].pc != Dead
  }

  predicate Enabled(s: State, p: Pid, a: Action) {
    if a.Begin? then p !in s.procs && a.worktree !in s.work && a.slots > 0
    else
      && p in s.procs
      && var me := s.procs[p];
         match a
         case Begin(_, _) => false
         case EnterPool(_) => me.pc == Waiting && s.pool == None
         case ReadMeta => me.pc == Scanning && me.todo != []
         case TryLock => me.pc.Read? && me.todo != []
         case Classify(_) => me.pc.Locked? && me.todo != []
         case Choose(c) => me.pc == Scanning && me.todo == [] && c in me.candidates
                           && forall d :: d in me.candidates ==> Before(c, d)
         case Invalidate => me.pc == Chosen
         case Drop => me.pc == Invalidated
         case LeavePool => me.pc == Dropped
         case WipeSome(i, left) => me.pc == Wiping && i in me.retired && i in s.dirs && left <= s.dirs[i]
         case WipeDone(i) => me.pc == Wiping && i in me.retired
         case FinishWiping => me.pc == Wiping
         case ClearSome(left) => me.pc == Clearing && me.pick.rank != 0 && me.pick.index in s.dirs
                                 && left <= s.dirs[me.pick.index]
         case ClearDone => me.pc == Clearing
         case Make => me.pc == Making
         case Name(_) => me.pc == Naming
         case Return => me.pc == Returning
         case Build(content) =>
           me.pc.Leased? && (me.pc.runner || me.pc.child)
           && (content.Some? ==> content.value <= Content(s, me.pick.index) + {me.worktree})
         case RunnerGone => me.pc.Leased?
         case ChildGone => me.pc.Leased?
         case Die => me.pc != Dead && (me.pc.Leased? ==> !me.pc.runner && !me.pc.child)
         case FreeSlot(i) => me.pc == Dead && i in s.slot && s.slot[i] == p
         case FreeWork => me.pc == Dead && me.worktree in s.work && s.work[me.worktree] == p
         case FreePool => me.pc == Dead && s.pool == Some(p)
  }

  // The effect of an action, one part of the state at a time.

  function NextProc(s: State, p: Pid, a: Action): Proc
    requires Enabled(s, p, a)
  {
    if a.Begin? then Proc(a.worktree, a.slots, Waiting, [], {}, {}, Candidate(1, 0, 0))
    else
      var me := s.procs[p];
      match a
      case EnterPool(todo) => me.(pc := Scanning, todo := todo)
      case ReadMeta => me.(pc := Read(Lookup(s, me.todo[0])))
      case TryLock =>
        if me.todo[0] in s.slot then me.(pc := Scanning, todo := me.todo[1..])
        else me.(pc := Locked(me.pc.value))
      case Classify(e) =>
        var k, value := me.todo[0], me.pc.value;
        if k >= me.slots then me.(pc := Scanning, todo := me.todo[1..], retired := me.retired + {k})
        else
          var c := Candidate(RankOf(value, me.worktree, e), if value.Some? then value.value.lastUsed else 0, k);
          me.(pc := Scanning, todo := me.todo[1..], candidates := me.candidates + {c})
      case Choose(c) => me.(pc := Chosen, pick := c)
      case Invalidate => me.(pc := Invalidated)
      case Drop => me.(pc := Dropped)
      case LeavePool => me.(pc := Wiping)
      case FinishWiping => me.(pc := Clearing)
      case ClearDone => me.(pc := Making)
      case Make => me.(pc := Naming)
      case Name(_) => me.(pc := Returning)
      case Return => me.(pc := Leased(true, true))
      case RunnerGone => me.(pc := Leased(false, me.pc.child))
      case ChildGone => me.(pc := Leased(me.pc.runner, false))
      case Die => me.(pc := Dead)
      case _ => me
  }

  /** Metadata is unlinked when a slot is retired or about to be wiped, and replaced at the end. */
  function NextMeta(s: State, p: Pid, a: Action): map<nat, Meta>
    requires Enabled(s, p, a)
  {
    match a
    case Classify(_) => if s.procs[p].todo[0] >= s.procs[p].slots then s.meta - {s.procs[p].todo[0]} else s.meta
    case Invalidate => if s.procs[p].pick.rank != 0 then s.meta - {s.procs[p].pick.index} else s.meta
    case Name(time) => s.meta[s.procs[p].pick.index := Meta(s.procs[p].worktree, time)]
    case _ => s.meta
  }

  /** Removal of a tree is not atomic: a wipe may leave any part behind before it completes. */
  function NextDirs(s: State, p: Pid, a: Action): map<nat, set<Worktree>>
    requires Enabled(s, p, a)
  {
    match a
    case WipeSome(k, left) => s.dirs[k := left]
    case WipeDone(k) => s.dirs - {k}
    case ClearSome(left) => s.dirs[s.procs[p].pick.index := left]
    case ClearDone => if s.procs[p].pick.rank != 0 then s.dirs - {s.procs[p].pick.index} else s.dirs
    case Make => s.dirs[s.procs[p].pick.index := Content(s, s.procs[p].pick.index)]
    case Build(content) =>
      if content.Some? then s.dirs[s.procs[p].pick.index := content.value] else s.dirs - {s.procs[p].pick.index}
    case _ => s.dirs
  }

  function NextSlot(s: State, p: Pid, a: Action): map<nat, Pid>
    requires Enabled(s, p, a)
  {
    match a
    case TryLock => if s.procs[p].todo[0] in s.slot then s.slot else s.slot[s.procs[p].todo[0] := p]
    case Drop =>
      map k | k in s.slot && (s.slot[k] == p ==> k == s.procs[p].pick.index || k in s.procs[p].retired) :: s.slot[k]
    case Return => map k | k in s.slot && (s.slot[k] == p ==> k == s.procs[p].pick.index) :: s.slot[k]
    case FreeSlot(k) => s.slot - {k}
    case _ => s.slot
  }

  function Apply(s: State, p: Pid, a: Action): State
    requires Enabled(s, p, a)
  {
    State(NextMeta(s, p, a), NextDirs(s, p, a),
          if a.EnterPool? then Some(p) else if a.LeavePool? || a.FreePool? then None else s.pool,
          NextSlot(s, p, a),
          if a.Begin? then s.work[a.worktree := p] else if a.FreeWork? then s.work - {s.procs[p].worktree} else s.work,
          s.procs[p := NextProc(s, p, a)])
  }

  // ------------------------------------------------------------- invariant

  predicate InPool(pc: Pc) {
    pc in {Scanning, Chosen, Invalidated, Dropped} || pc.Read? || pc.Locked?
  }

  predicate Picked(pc: Pc) {
    pc in {Chosen, Invalidated, Dropped, Wiping, Clearing, Making, Naming, Returning} || pc.Leased?
  }

  predicate Holds(s: State, p: Pid, i: nat) {
    i in s.slot && s.slot[i] == p
  }

  /** The locks a live runner is entitled to believe it holds. */
  ghost predicate LocksOk(s: State, p: Pid, me: Proc) {
    && me.worktree in s.work && s.work[me.worktree] == p
    && (me.pc == Waiting ==> me.candidates == {} && me.retired == {})
    && (InPool(me.pc) ==> s.pool == Some(p))
    && (me.pc.Read? || me.pc.Locked? ==> me.todo != [])
    && (me.pc.Locked? ==> Holds(s, p, me.todo[0]))
    && (InPool(me.pc) && !(me.pc in {Dropped}) ==> forall c :: c in me.candidates ==> Holds(s, p, c.index))
    && (!me.pc.Leased? ==> forall i :: i in me.retired ==> Holds(s, p, i))
    && (Picked(me.pc) ==> Holds(s, p, me.pick.index))
    && (forall i :: i in me.retired ==> i >= me.slots)
    && (forall c :: c in me.candidates ==> c.index < me.slots)
    && (Picked(me.pc) ==> me.pick.index < me.slots)
  }

  /** What a live runner believes about metadata and directories is true of them. */
  ghost predicate BeliefsOk(s: State, me: Proc) {
    var w, i, own := me.worktree, me.pick.index, me.pick.rank == 0;
    && (me.pc.Read? || me.pc.Locked? ==>
          (me.todo != [] && ((me.pc.value.Some? && me.pc.value.value.worktree == w) <==> Names(s, me.todo[0], w))))
    && (me.pc == Scanning || me.pc.Read? || me.pc.Locked? ==>
          forall c :: c in me.candidates ==> (c.rank == 0 <==> Names(s, c.index, w)))
    && (me.pc == Chosen ==> (own <==> Names(s, i, w)))
    && (me.pc in {Invalidated, Dropped, Wiping, Clearing, Making, Naming} ==>
          (own ==> Names(s, i, w)) && (!own ==> i !in s.meta))
    && (me.pc in {Making, Naming} && !own ==> Content(s, i) == {})
    && (me.pc == Returning || me.pc.Leased? ==> Names(s, i, w))
    && (!me.pc.Leased? ==> forall k :: k in me.retired ==> k !in s.meta)
  }

  ghost predicate ProcOk(s: State, p: Pid) {
    Live(s, p) ==> LocksOk(s, p, s.procs[p]) && BeliefsOk(s, s.procs[p])
  }

  /** Metadata naming a worktree means the directory holds only that worktree's output. */
  ghost predicate MetaOk(s: State) {
    forall i :: i in s.meta ==> Content(s, i) <= {s.meta[i].worktree}
  }

  ghost predicate Inv(s: State) {
    && MetaOk(s)
    && (forall p :: p in s.procs ==> ProcOk(s, p))
    && (forall i :: i in s.slot ==> s.slot[i] in s.procs)
    && (forall w :: w in s.work ==> s.work[w] in s.procs && s.procs[s.work[w]].worktree == w)
    && (s.pool.Some? ==> s.pool.value in s.procs)
  }

  // --------------------------------------------------------- preservation

  /** A step changes a slot's metadata or directory only behind that slot's lock. */
  lemma TouchesOwnSlots(s: State, p: Pid, a: Action, i: nat)
    requires Enabled(s, p, a) && ProcOk(s, p)
    requires Lookup(Apply(s, p, a), i) != Lookup(s, i) || Content(Apply(s, p, a), i) != Content(s, i)
    ensures Holds(s, p, i) && Live(s, p)
  {
    if Lookup(Apply(s, p, a), i) != Lookup(s, i) {
      assert a.Classify? || a.Invalidate? || a.Name?;
    } else {
      assert a.WipeSome? || a.WipeDone? || a.ClearSome? || a.ClearDone? || a.Make? || a.Build?;
    }
  }

  /** No step takes a lock away from another process. */
  lemma OthersHold(s: State, p: Pid, a: Action, q: Pid, i: nat)
    requires Enabled(s, p, a) && q != p && Holds(s, q, i)
    ensures Holds(Apply(s, p, a), q, i)
  {
  }

  lemma OtherLocks(s: State, p: Pid, a: Action, q: Pid)
    requires Inv(s) && Enabled(s, p, a) && q != p && Live(s, q)
    ensures LocksOk(Apply(s, p, a), q, s.procs[q])
  {
    forall i | Holds(s, q, i)
      ensures Holds(Apply(s, p, a), q, i)
    {
      OthersHold(s, p, a, q, i);
    }
  }

  lemma OtherSlots(s: State, p: Pid, a: Action, q: Pid, i: nat)
    requires Inv(s) && Enabled(s, p, a) && q != p && Holds(s, q, i)
    ensures Lookup(Apply(s, p, a), i) == Lookup(s, i) && Content(Apply(s, p, a), i) == Content(s, i)
    ensures forall w :: Names(Apply(s, p, a), i, w) <==> Names(s, i, w)
    ensures i in Apply(s, p, a).meta <==> i in s.meta
  {
    var t := Apply(s, p, a);
    if Lookup(t, i) != Lookup(s, i) || Content(t, i) != Content(s, i) {
      assert p in s.procs ==> ProcOk(s, p);
      TouchesOwnSlots(s, p, a, i);
    }
    assert Lookup(t, i) == Lookup(s, i);
  }

  /**
   The window between a metadata read and the slot lock: whatever others do in it, the file
   names the reader's worktree afterwards exactly when it did when it was read.
   */
  lemma ReadStaysTrue(s: State, p: Pid, a: Action, q: Pid)
    requires Inv(s) && Enabled(s, p, a) && q != p && Live(s, q) && s.procs[q].pc.Read?
    ensures var me := s.procs[q];
            Names(Apply(s, p, a), me.todo[0], me.worktree) <==> Names(s, me.todo[0], me.worktree)
  {
    var me := s.procs[q];
    assert LocksOk(s, q, me) && s.pool == Some(q);
    if a.Name? {
      assert LocksOk(s, p, s.procs[p]) && s.procs[p].worktree != me.worktree;
      assert BeliefsOk(s, s.procs[p]);
    } else if a.Classify? || a.Invalidate? {
      assert false;
    }
  }

  /** Another runner's true beliefs survive the step. */
  lemma OtherBeliefs(s: State, p: Pid, a: Action, q: Pid)
    requires Inv(s) && Enabled(s, p, a) && q != p && Live(s, q)
    ensures BeliefsOk(Apply(s, p, a), s.procs[q])
  {
    var me := s.procs[q];
    forall i | Holds(s, q, i)
      ensures Content(Apply(s, p, a), i) == Content(s, i)
      ensures forall w :: Names(Apply(s, p, a), i, w) <==> Names(s, i, w)
      ensures i in Apply(s, p, a).meta <==> i in s.meta
    {
      OtherSlots(s, p, a, q, i);
    }
    if me.pc.Read? {
      ReadStaysTrue(s, p, a, q);
    }
    assert LocksOk(s, q, me) && BeliefsOk(s, me);
  }

  predicate ScanAction(a: Action) {
    a.EnterPool? || a.ReadMeta? || a.TryLock? || a.Classify?
  }

  predicate PickAction(a: Action) {
    a.Choose? || a.Invalidate? || a.Drop? || a.LeavePool?
  }

  predicate WipeAction(a: Action) {
    a.WipeSome? || a.WipeDone? || a.FinishWiping? || a.ClearSome? || a.ClearDone? || a.Make?
  }

  lemma ScanLocks(s: State, p: Pid, a: Action)
    requires Enabled(s, p, a) && Live(s, p) && ScanAction(a)
    requires LocksOk(s, p, s.procs[p])
    ensures LocksOk(Apply(s, p, a), p, NextProc(s, p, a))
  {
  }

  lemma PickLocks(s: State, p: Pid, a: Action)
    requires Enabled(s, p, a) && Live(s, p) && PickAction(a)
    requires LocksOk(s, p, s.procs[p])
    ensures LocksOk(Apply(s, p, a), p, NextProc(s, p, a))
  {
  }

  lemma WipeLocks(s: State, p: Pid, a: Action)
    requires Enabled(s, p, a) && Live(s, p) && WipeAction(a)
    requires LocksOk(s, p, s.procs[p])
    ensures LocksOk(Apply(s, p, a), p, NextProc(s, p, a))
  {
  }

  lemma LeaseLocks(s: State, p: Pid, a: Action)
    requires Enabled(s, p, a) && Live(s, p) && (a.Name? || a.Return? || a.Build? || a.RunnerGone? || a.ChildGone?)
    requires LocksOk(s, p, s.procs[p])
    ensures LocksOk(Apply(s, p, a), p, NextProc(s, p, a))
  {
  }

  lemma ScanBeliefs(s: State, p: Pid, a: Action)
    requires Enabled(s, p, a) && Live(s, p) && ScanAction(a)
    requires LocksOk(s, p, s.procs[p]) && BeliefsOk(s, s.procs[p])
    ensures BeliefsOk(Apply(s, p, a), NextProc(s, p, a))
  {
    var me, t, next := s.procs[p], Apply(s, p, a), NextProc(s, p, a);
    if a.Classify? {
      assert forall c :: c in me.candidates ==> (Names(t, c.index, me.worktree) <==> Names(s, c.index, me.worktree));
    }
  }

  lemma PickBeliefs(s: State, p: Pid, a: Action)
    requires Enabled(s, p, a) && Live(s, p) && PickAction(a)
    requires LocksOk(s, p, s.procs[p]) && BeliefsOk(s, s.procs[p])
    ensures BeliefsOk(Apply(s, p, a), NextProc(s, p, a))
  {
  }

  lemma WipeBeliefs(s: State, p: Pid, a: Action)
    requires Enabled(s, p, a) && Live(s, p) && WipeAction(a)
    requires LocksOk(s, p, s.procs[p]) && BeliefsOk(s, s.procs[p])
    ensures BeliefsOk(Apply(s, p, a), NextProc(s, p, a))
  {
  }

  lemma LaterBeliefs(s: State, p: Pid, a: Action)
    requires Enabled(s, p, a) && Live(s, p) && !ScanAction(a) && !PickAction(a) && !WipeAction(a) && !a.Begin?
    requires LocksOk(s, p, s.procs[p]) && BeliefsOk(s, s.procs[p])
    ensures Live(Apply(s, p, a), p) ==> BeliefsOk(Apply(s, p, a), NextProc(s, p, a))
  {
  }

  lemma ActorKeeps(s: State, p: Pid, a: Action)
    requires Inv(s) && Enabled(s, p, a)
    ensures ProcOk(Apply(s, p, a), p)
  {
    if a.Begin? {
      assert NextProc(s, p, a).retired == {};
    } else if Live(s, p) && !a.Die? {
      if ScanAction(a) {
        ScanLocks(s, p, a);
        ScanBeliefs(s, p, a);
      } else if PickAction(a) {
        PickLocks(s, p, a);
        PickBeliefs(s, p, a);
      } else {
        if WipeAction(a) {
          WipeLocks(s, p, a);
          WipeBeliefs(s, p, a);
        } else {
          LeaseLocks(s, p, a);
          LaterBeliefs(s, p, a);
        }
      }
    }
  }

  lemma MetaKeeps(s: State, p: Pid, a: Action)
    requires Inv(s) && Enabled(s, p, a)
    ensures MetaOk(Apply(s, p, a))
  {
    var t := Apply(s, p, a);
    if Live(s, p) {
      assert LocksOk(s, p, s.procs[p]) && BeliefsOk(s, s.procs[p]);
    }
    forall i | i in t.meta
      ensures Content(t, i) <= {t.meta[i].worktree}
    {
      if a.Name? && i == s.procs[p].pick.index {
        assert Content(t, i) == Content(s, i);
      } else {
        MetaSlot(s, p, a, i);
      }
    }
  }

  lemma MetaSlot(s: State, p: Pid, a: Action, i: nat)
    requires Inv(s) && Enabled(s, p, a) && i in Apply(s, p, a).meta
    requires a.Name? ==> i != s.procs[p].pick.index
    ensures Content(Apply(s, p, a), i) <= {Apply(s, p, a).meta[i].worktree}
  {
    var t := Apply(s, p, a);
    assert i in s.meta && t.meta[i] == s.meta[i];
    if Content(t, i) != Content(s, i) {
      var me := s.procs[p];
      assert LocksOk(s, p, me) && BeliefsOk(s, me);
      if a.Build? {
        assert Names(s, i, me.worktree);
      }
    }
  }

  /** A step is its actor's: everyone else is as they were. */
  lemma OthersStand(s: State, p: Pid, a: Action, q: Pid)
    requires Enabled(s, p, a) && q != p && q in Apply(s, p, a).procs
    ensures q in s.procs && Apply(s, p, a).procs[q] == s.procs[q]
  {
  }

  lemma OtherKeeps(s: State, p: Pid, a: Action, q: Pid)
    requires Inv(s) && Enabled(s, p, a) && q != p && q in Apply(s, p, a).procs
    ensures ProcOk(Apply(s, p, a), q)
  {
    OthersStand(s, p, a, q);
    if Live(s, q) {
      OtherLocks(s, p, a, q);
      OtherBeliefs(s, p, a, q);
    }
  }

  lemma StepKeeps(s: State, p: Pid, a: Action)
    requires Inv(s) && Enabled(s, p, a)
    ensures Inv(Apply(s, p, a))
  {
    MetaKeeps(s, p, a);
    forall q | q in Apply(s, p, a).procs
      ensures ProcOk(Apply(s, p, a), q)
    {
      if q == p {
        ActorKeeps(s, p, a);
      } else {
        OtherKeeps(s, p, a, q);
      }
    }
  }

  // ------------------------------------------------------------------ runs

  const EMPTY := State(map[], map[], None, map[], map[], map[])

  ghost predicate Next(s: State, t: State) {
    exists p, a :: Enabled(s, p, a) && t == Apply(s, p, a)
  }

  /** Any interleaving of any number of runners, each free to stop after any of its steps. */
  ghost predicate Run(run: seq<State>) {
    run != [] && run[0] == EMPTY && forall i :: 0 < i < |run| ==> Next(run[i - 1], run[i])
  }

  lemma {:induction false} RunInvariant(run: seq<State>, n: nat)
    requires Run(run) && n < |run|
    ensures Inv(run[n])
  {
    if n > 0 {
      RunInvariant(run, n - 1);
      assert Next(run[n - 1], run[n]);
      var p, a :| Enabled(run[n - 1], p, a) && run[n] == Apply(run[n - 1], p, a);
      StepKeeps(run[n - 1], p, a);
    }
  }

  predicate Leases(s: State, p: Pid, i: nat) {
    Live(s, p) && s.procs[p].pc.Leased? && s.procs[p].pick.index == i
  }

  /** No two live leases share a slot, nor a worktree. */
  lemma LeasesAreExclusive(run: seq<State>, n: nat, p: Pid, q: Pid, i: nat, j: nat)
    requires Run(run) && n < |run| && p != q && Leases(run[n], p, i) && Leases(run[n], q, j)
    ensures i != j && run[n].procs[p].worktree != run[n].procs[q].worktree
  {
    RunInvariant(run, n);
    var s := run[n];
    assert LocksOk(s, p, s.procs[p]) && LocksOk(s, q, s.procs[q]);
  }

  /** Slot metadata is truthful in every reachable state, whoever died wherever. */
  lemma MetadataIsTruthful(run: seq<State>, n: nat, i: nat)
    requires Run(run) && n < |run| && i in run[n].meta
    ensures Content(run[n], i) <= {run[n].meta[i].worktree}
  {
    RunInvariant(run, n);
  }

  /** A leased slot holds only its own worktree's output, and no other process can touch it. */
  lemma LeaseIsIsolated(run: seq<State>, n: nat, p: Pid, i: nat, q: Pid, a: Action)
    requires Run(run) && n < |run| && Leases(run[n], p, i)
    ensures Content(run[n], i) <= {run[n].procs[p].worktree}
    ensures q != p && Enabled(run[n], q, a) ==>
              Lookup(Apply(run[n], q, a), i) == Lookup(run[n], i)
                  && Content(Apply(run[n], q, a), i) == Content(run[n], i)
  {
    RunInvariant(run, n);
    var s := run[n];
    assert LocksOk(s, p, s.procs[p]) && BeliefsOk(s, s.procs[p]);
    if q != p && Enabled(s, q, a) {
      OtherSlots(s, q, a, p, i);
    }
  }

  /**
   Staleness is harmless: the pick, made from metadata read before the lock, keeps a slot
   unwiped exactly when its metadata names the runner's worktree now. So a stale read never
   reuses foreign output and never wipes the runner's own; it can only misrank another's slot.
   */
  lemma PickIsCurrent(run: seq<State>, n: nat, p: Pid)
    requires Run(run) && n < |run| && Live(run[n], p) && run[n].procs[p].pc == Chosen
    ensures var me := run[n].procs[p];
            && Holds(run[n], p, me.pick.index) && me.pick.index < me.slots
            && (me.pick.rank == 0 <==> Names(run[n], me.pick.index, me.worktree))
  {
    RunInvariant(run, n);
    assert LocksOk(run[n], p, run[n].procs[p]) && BeliefsOk(run[n], run[n].procs[p]);
  }

  /** A runner that locked a slot already holding its own output takes such a slot. */
  lemma OwnSlotPreferred(s: State, p: Pid, pick: Candidate, c: Candidate)
    requires Inv(s) && Live(s, p) && Enabled(s, p, Choose(pick))
    requires c in s.procs[p].candidates && Names(s, c.index, s.procs[p].worktree)
    ensures Names(s, pick.index, s.procs[p].worktree)
  {
    assert BeliefsOk(s, s.procs[p]);
    assert Before(pick, c);
  }

  /** A slot about to be named either was the runner's own or has been emptied of everything. */
  lemma NamedSlotIsClean(run: seq<State>, n: nat, p: Pid, time: nat)
    requires Run(run) && n < |run| && Live(run[n], p) && Enabled(run[n], p, Name(time))
    ensures var me := run[n].procs[p];
            Content(run[n], me.pick.index) <= (if me.pick.rank == 0 then {me.worktree} else {})
  {
    RunInvariant(run, n);
    assert BeliefsOk(run[n], run[n].procs[p]);
  }
}
