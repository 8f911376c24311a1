/**
 The captured output of a native tool: two reader threads share one atomic counter with every
 earlier tool of the same task, and keep bytes only while the counter is below a bound.
 */
module OutputReaders {

  type Byte = bv8

  const U64: nat := 0x1_0000_0000_0000_0000
  const BUFFER: nat := 8192

  function Min(a: nat, b: nat): nat {
    if a < b then a else b
  }

  /** Saturating subtraction. */
  function Minus(a: nat, b: nat): nat {
    if a < b then 0 else a - b
  }

  /** What is left of a task's output budget once room for its own messages is set aside. */
  function Bound(outputBytes: nat): nat {
    Minus(outputBytes, Min(1024, outputBytes / 2))
  }

  /** A reader holds a chunk it has read, then knows the counter before that chunk, then keeps a part. */
  datatype Phase = Reading | Holding(chunk: seq<Byte>) | Counted(chunk: seq<Byte>, before: nat)

  /** `seen` is all that was read from the pipe, `kept` what the caller gets. */
  datatype Reader = Reader(phase: Phase, seen: seq<Byte>, kept: seq<Byte>)

  datatype State = State(counter: nat, out: Reader, err: Reader)

  datatype Side = Out | Err

  /** The atomic steps of a reader thread. */
  datatype Action = Read(side: Side, chunk: seq<Byte>) | Count(side: Side) | Keep(side: Side)

  function Of(s: State, side: Side): Reader {
    if side == Out then s.out else s.err
  }

  function With(s: State, side: Side, r: Reader, counter: nat): State {
    if side == Out then State(counter, r, s.err) else State(counter, s.out, r)
  }

  predicate Enabled(s: State, a: Action) {
    match a
    case Read(side, chunk) => Of(s, side).phase.Reading? && 0 < |chunk| <= BUFFER
    case Count(side) => Of(s, side).phase.Holding?
    case Keep(side) => Of(s, side).phase.Counted?
  }

  function Step(s: State, a: Action, bound: nat): State
    requires Enabled(s, a)
  {
    var r := Of(s, a.side);
    match a
    case Read(side, chunk) => With(s, side, r.(phase := Holding(chunk), seen := r.seen + chunk), s.counter)
    case Count(side) =>
      With(s, side, r.(phase := Counted(r.phase.chunk, s.counter)), (s.counter + |r.phase.chunk|) % U64)
    case Keep(side) =>
      With(s, side, r.(phase := Reading, kept := r.kept + r.phase.chunk[..Kept(r.phase, bound)]), s.counter)
  }

  /** How much of a counted chunk is kept. */
  function Kept(p: Phase, bound: nat): (n: nat)
    requires p.Counted?
    ensures n <= |p.chunk|
  {
    Min(Minus(bound, p.before), |p.chunk|)
  }

  function Run(s: State, actions: seq<Action>, bound: nat): State
    requires Possible(s, actions, bound)
    decreases |actions|
  {
    if actions == [] then s else Run(Step(s, actions[0], bound), actions[1..], bound)
  }

  predicate Possible(s: State, actions: seq<Action>, bound: nat)
    decreases |actions|
  {
    actions == [] || (Enabled(s, actions[0]) && Possible(Step(s, actions[0], bound), actions[1..], bound))
  }

  predicate Fresh(s: State, initial: nat) {
    s == State(initial, Reader(Reading, [], []), Reader(Reading, [], [])) && initial < U64
  }

  /** Both pipes are at their end and the threads were joined. */
  predicate Joined(s: State) {
    s.out.phase.Reading? && s.err.phase.Reading?
  }

  function Total(s: State, initial: nat): nat {
    initial + |s.out.seen| + |s.err.seen|
  }

  // --------------------------------------------------------------- invariant

  /** What was read and counted so far. */
  function Counting(r: Reader): int {
    |r.seen| - if r.phase.Holding? then |r.phase.chunk| else 0
  }

  /** What is kept, with the part of a counted chunk that is about to be. */
  function Owed(r: Reader, bound: nat): nat {
    |r.kept| + if r.phase.Counted? then Kept(r.phase, bound) else 0
  }

  /** What is kept stands at the front of what was read, and once something is missing nothing more is kept. */
  predicate Front(r: Reader, counter: nat, bound: nat) {
    match r.phase
    case Reading => r.kept <= r.seen && (|r.kept| < |r.seen| ==> bound <= counter)
    case Holding(chunk) =>
      && |chunk| <= |r.seen| && var past := r.seen[..|r.seen| - |chunk|];
      r.seen == past + chunk && r.kept <= past && (|r.kept| < |past| ==> bound <= counter)
    case Counted(chunk, before) =>
      && |chunk| <= |r.seen| && before + |chunk| <= counter && var past := r.seen[..|r.seen| - |chunk|];
      r.seen == past + chunk && r.kept <= past && (|r.kept| < |past| ==> bound <= before)
  }

  predicate Balanced(s: State, initial: nat, bound: nat) {
    && s.counter == initial + Counting(s.out) + Counting(s.err) < U64
    && Counting(s.out) >= 0 && Counting(s.err) >= 0
    && Owed(s.out, bound) + Owed(s.err, bound) == Minus(Min(bound, s.counter), initial)
  }

  predicate Inv(s: State, initial: nat, bound: nat) {
    && Front(s.out, s.counter, bound) && Front(s.err, s.counter, bound)
    && Balanced(s, initial, bound)
  }

  lemma TotalGrows(s: State, a: Action, bound: nat, initial: nat)
    requires Enabled(s, a)
    ensures Total(s, initial) <= Total(Step(s, a, bound), initial)
  {
  }

  lemma {:induction false} RunGrows(s: State, actions: seq<Action>, bound: nat, initial: nat)
    requires Possible(s, actions, bound)
    ensures Total(s, initial) <= Total(Run(s, actions, bound), initial)
    decreases |actions|
  {
    if actions != [] {
      TotalGrows(s, actions[0], bound, initial);
      RunGrows(Step(s, actions[0], bound), actions[1..], bound, initial);
    }
  }

  lemma RoomFilled(bound: nat, before: nat, initial: nat, n: nat)
    requires initial <= before
    ensures Minus(Min(bound, before + n), initial) == Minus(Min(bound, before), initial) + Min(Minus(bound, before), n)
  {
  }

  /** A counter that does not wrap only helps the other reader. */
  lemma FrontMoves(r: Reader, counter: nat, more: nat, bound: nat)
    requires Front(r, counter, bound) && counter <= more
    ensures Front(r, more, bound)
  {
  }

  lemma FrontCounts(r: Reader, counter: nat, bound: nat)
    requires r.phase.Holding? && Front(r, counter, bound)
    ensures Front(r.(phase := Counted(r.phase.chunk, counter)), counter + |r.phase.chunk|, bound)
  {
  }

  lemma CountIs(s: State, side: Side, bound: nat)
    requires Of(s, side).phase.Holding? && s.counter + |Of(s, side).phase.chunk| < U64
    ensures Step(s, Count(side), bound) == CountedState(s, side)
  {
  }

  function CountedState(s: State, side: Side): State
    requires Of(s, side).phase.Holding?
  {
    var r := Of(s, side);
    With(s, side, r.(phase := Counted(r.phase.chunk, s.counter)), s.counter + |r.phase.chunk|)
  }

  lemma CountedBalance(s: State, side: Side, initial: nat, bound: nat)
    requires Balanced(s, initial, bound) && Of(s, side).phase.Holding? && Total(s, initial) < U64
    ensures Balanced(CountedState(s, side), initial, bound)
  {
    RoomFilled(bound, s.counter, initial, |Of(s, side).phase.chunk|);
  }

  lemma CountedFronts(s: State, side: Side, bound: nat)
    requires Front(s.out, s.counter, bound) && Front(s.err, s.counter, bound) && Of(s, side).phase.Holding?
    ensures var d := CountedState(s, side); Front(d.out, d.counter, bound) && Front(d.err, d.counter, bound)
  {
    FrontCounts(Of(s, side), s.counter, bound);
    FrontMoves(if side == Out then s.err else s.out, s.counter, CountedState(s, side).counter, bound);
  }

  lemma CountKeeps(s: State, side: Side, initial: nat, bound: nat)
    requires Inv(s, initial, bound) && Of(s, side).phase.Holding? && Total(s, initial) < U64
    ensures Inv(Step(s, Count(side), bound), initial, bound)
  {
    CountedBalance(s, side, initial, bound);
    CountedFronts(s, side, bound);
    CountIs(s, side, bound);
  }

  lemma KeepKeeps(s: State, side: Side, initial: nat, bound: nat)
    requires Inv(s, initial, bound) && Of(s, side).phase.Counted?
    ensures Inv(Step(s, Keep(side), bound), initial, bound)
  {
    var r := Of(s, side);
    var n := Kept(r.phase, bound);
    var past := r.seen[..|r.seen| - |r.phase.chunk|];
    if |r.kept| == |past| {
      assert r.kept + r.phase.chunk[..n] <= past + r.phase.chunk;
    } else {
      assert n == 0 && r.kept + r.phase.chunk[..n] == r.kept;
      assert r.kept <= past + r.phase.chunk;
    }
  }

  lemma ReadKeeps(s: State, side: Side, chunk: seq<Byte>, initial: nat, bound: nat)
    requires Inv(s, initial, bound) && Of(s, side).phase.Reading? && |chunk| > 0 && |chunk| <= BUFFER
    ensures Inv(Step(s, Read(side, chunk), bound), initial, bound)
  {
    var r := Of(s, side);
    assert (r.seen + chunk)[..|r.seen|] == r.seen;
  }

  lemma {:induction false} RunKeeps(s: State, actions: seq<Action>, initial: nat, bound: nat)
    requires Inv(s, initial, bound) && Possible(s, actions, bound)
    requires Total(Run(s, actions, bound), initial) < U64
    ensures Inv(Run(s, actions, bound), initial, bound)
    decreases |actions|
  {
    if actions != [] {
      var a := actions[0];
      RunGrows(s, actions, bound, initial);
      match a {
        case Read(side, chunk) => ReadKeeps(s, side, chunk, initial, bound);
        case Count(side) => CountKeeps(s, side, initial, bound);
        case Keep(side) => KeepKeeps(s, side, initial, bound);
      }
      RunKeeps(Step(s, a, bound), actions[1..], initial, bound);
    }
  }

  // ------------------------------------------------------------------ results

  /** However the two threads interleave, exactly the room between the counters is filled. */
  lemma {:induction false} KeptExactly(s: State, actions: seq<Action>, initial: nat, bound: nat)
    requires Fresh(s, initial) && Possible(s, actions, bound)
    requires var d := Run(s, actions, bound); Joined(d) && Total(d, initial) < U64
    ensures var d := Run(s, actions, bound);
            && d.counter == Total(d, initial)
            && |d.out.kept| + |d.err.kept| == Minus(Min(bound, d.counter), initial)
            && d.out.kept <= d.out.seen && d.err.kept <= d.err.seen
  {
    RunKeeps(s, actions, initial, bound);
  }

  /**
   A tool that is not refused for its output lost none of it. A refused one lost all that was
   above the bound, or everything when the bound was already passed before it began; only then
   can it be refused without having lost anything, by having printed nothing.
   */
  lemma {:induction false} RefusedExactly(s: State, actions: seq<Action>, initial: nat, bound: nat)
    requires Fresh(s, initial) && Possible(s, actions, bound)
    requires var d := Run(s, actions, bound); Joined(d) && Total(d, initial) < U64
    ensures var d := Run(s, actions, bound);
            && (d.counter <= bound || d.counter == initial <==> d.out.kept == d.out.seen && d.err.kept == d.err.seen)
            && |d.out.seen| + |d.err.seen| - |d.out.kept| - |d.err.kept|
               == Minus(d.counter, if initial <= bound then bound else initial)
  {
    KeptExactly(s, actions, initial, bound);
  }

  /**
   The counter is 64 bits wide. A tool that would carry it past its end loses its output and is
   not refused; that takes more bytes than any task can read.
   */
  lemma WrappedCounterHidesLoss(chunk: seq<Byte>)
    requires |chunk| == 5
    ensures var s := State(U64 - 1, Reader(Reading, [], []), Reader(Reading, [], []));
            var a := [Read(Out, chunk), Count(Out), Keep(Out)];
            && Fresh(s, U64 - 1) && Possible(s, a, 10)
            && Run(s, a, 10).counter <= 10 && Run(s, a, 10).out.kept == [] && Run(s, a, 10).out.seen == chunk
  {
    var s := State(U64 - 1, Reader(Reading, [], []), Reader(Reading, [], []));
    var s1 := Step(s, Read(Out, chunk), 10);
    var s2 := Step(s1, Count(Out), 10);
    var s3 := Step(s2, Keep(Out), 10);
    assert [] + chunk == chunk;
    assert s2.counter == 4;
    var a := [Read(Out, chunk), Count(Out), Keep(Out)];
    assert a[1..] == [Count(Out), Keep(Out)] && a[1..][1..] == [Keep(Out)];
    assert Run(s3, [], 10) == s3;
    assert Run(s2, [Keep(Out)], 10) == s3;
    assert Run(s1, a[1..], 10) == s3;
  }

  // ------------------------------------------------------------------ the tool

  datatype Outcome = Finished(code: int, stdout: seq<Byte>, stderr: seq<Byte>) | Unavailable | Capacity

  /** One run of a tool: its pending mark and its two reader threads. */
  class Tool {
    const bound: nat
    var state: State
    var pending: bool

    /** The process was spawned. */
    constructor (outputBytes: nat, counter: nat)
      requires counter < U64
      ensures bound == Bound(outputBytes) && Fresh(state, counter) && pending
    {
      bound := Bound(outputBytes);
      state := State(counter, Reader(Reading, [], []), Reader(Reading, [], []));
      pending := true;
    }

    method ReadChunk(side: Side, chunk: seq<Byte>)
      requires Enabled(state, Read(side, chunk))
      modifies `state
      ensures state == Step(old(state), Read(side, chunk), bound)
    {
      var r := Of(state, side);
      state := With(state, side, r.(phase := Holding(chunk), seen := r.seen + chunk), state.counter);
    }

    /** The atomic addition, which returns the value before it. */
    method FetchAdd(side: Side)
      requires Enabled(state, Count(side))
      modifies `state
      ensures state == Step(old(state), Count(side), bound)
    {
      var r := Of(state, side);
      var before := state.counter;
      state := With(state, side, r.(phase := Counted(r.phase.chunk, before)), (before + |r.phase.chunk|) % U64);
    }

    method KeepChunk(side: Side)
      requires Enabled(state, Keep(side))
      modifies `state
      ensures state == Step(old(state), Keep(side), bound)
    {
      var r := Of(state, side);
      var keep := Min(Minus(bound, r.phase.before), |r.phase.chunk|);
      state := With(state, side, r.(phase := Reading, kept := r.kept + r.phase.chunk[..keep]), state.counter);
    }

    /** The parent, once the process ended and both threads were joined. The mark goes only with a full result. */
    method Conclude(readersOk: bool, code: int, exited: bool) returns (o: Outcome)
      requires Joined(state) && pending
      modifies `pending
      ensures o.Finished? <==> readersOk && state.counter <= bound && exited
      ensures o.Finished? ==> o == Finished(code, state.out.kept, state.err.kept)
      ensures o.Capacity? <==> readersOk && state.counter > bound
      ensures pending <==> !o.Finished?
    {
      if !readersOk {
        return Unavailable;
      }
      if state.counter > bound {
        return Capacity;
      }
      if !exited {
        return Unavailable;
      }
      pending := false;
      o := Finished(code, state.out.kept, state.err.kept);
    }
  }
}
