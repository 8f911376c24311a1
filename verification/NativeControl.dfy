/**
 Request correlation on the native control channel: calls made to the parent, requests answered
 for it, timers, and the close that ends both. Promises and timers are steps of their own, so
 any interleaving of replies, timeouts, completions and failures is a sequence of actions.
 */
module NativeControl {

  const CALLS: nat := 16

  datatype How = Replied(ok: bool) | TimedOut | NotSent | Closed

  /** The promise of call `id` is resolved or rejected. */
  datatype Settlement = Settlement(id: nat, how: How)

  datatype Frame = CallFrame(id: nat) | ReplyFrame(id: nat, ok: bool) | EventFrame

  /**
   `pending` lists the ids in the order of the map they are kept in; `armed` is the set of running
   timers. A request that was accepted is `running`, then `answered`, or `failing` when its reply
   could not be sent; one whose handler threw is `lost`.
   */
  datatype Control = Control(sequence: nat, pending: seq<nat>, armed: set<nat>, ended: bool, inFlight: nat,
                             running: nat, answered: nat, failing: nat, lost: nat,
                             settled: seq<Settlement>, written: seq<Frame>)

  predicate Initial(c: Control) {
    && c.sequence == 0 && c.pending == [] && c.armed == {} && !c.ended && c.settled == [] && c.written == []
    && c.inFlight == c.running == c.answered == c.failing == c.lost == 0
  }

  /** `fits` says whether the line is short enough and the socket's backlog small enough to take it. */
  datatype Action =
    | Call(fits: bool)
    | Reply(id: nat, ok: bool)
    | Expire(id: nat)
    | Request(throws: bool)
    | Answer(id: nat, ok: bool, fits: bool)
    | Catch
    | Finish
    | Emit(fits: bool)
    | Close

  /** A timer fires only while armed, and a promise callback only runs for a request that got that far. */
  predicate Enabled(c: Control, a: Action) {
    match a
    case Expire(id) => id in c.armed
    case Answer(_, _, _) => c.running > 0
    case Catch => c.failing > 0
    case Finish => c.answered > 0
    case _ => true
  }

  function Without(s: seq<nat>, id: nat): seq<nat> {
    if s == [] then [] else if s[0] == id then s[1..] else [s[0]] + Without(s[1..], id)
  }

  function Rejections(ids: seq<nat>): (r: seq<Settlement>)
    ensures |r| == |ids|
  {
    seq(|ids|, i requires 0 <= i < |ids| => Settlement(ids[i], Closed))
  }

  function Ended(c: Control): Control {
    if c.ended then c
    else c.(ended := true, settled := c.settled + Rejections(c.pending), pending := [],
           armed := c.armed - set id | id in c.pending)
  }

  function Settle(c: Control, id: nat, how: How): Control {
    c.(pending := Without(c.pending, id), armed := c.armed - {id}, settled := c.settled + [Settlement(id, how)])
  }

  function Step(c: Control, a: Action): Control {
    match a
    case Call(fits) =>
      if c.ended || |c.pending| >= CALLS then c
      else
        var id := c.sequence + 1;
        var d := c.(sequence := id, pending := c.pending + [id], armed := c.armed + {id});
        if fits then d.(written := d.written + [CallFrame(id)]) else Settle(d, id, NotSent)
    case Reply(id, ok) =>
      if id in c.pending then Settle(c, id, Replied(ok)) else c
    case Expire(id) => Settle(c, id, TimedOut)
    case Request(throws) =>
      if c.inFlight >= CALLS then Ended(c)
      else if throws then Ended(c.(inFlight := c.inFlight + 1, lost := c.lost + 1))
      else c.(inFlight := c.inFlight + 1, running := c.running + 1)
    case Answer(id, ok, fits) =>
      if c.running == 0 then c
      else if c.ended || !fits then c.(running := c.running - 1, failing := c.failing + 1)
      else c.(running := c.running - 1, answered := c.answered + 1, written := c.written + [ReplyFrame(id, ok)])
    case Catch =>
      if c.failing == 0 then c
      else Ended(c.(failing := c.failing - 1, answered := c.answered + 1))
    case Finish =>
      if c.answered == 0 || c.inFlight == 0 then c else c.(answered := c.answered - 1, inFlight := c.inFlight - 1)
    case Emit(fits) =>
      if c.ended || !fits then c else c.(written := c.written + [EventFrame])
    case Close => Ended(c)
  }

  function Run(c: Control, actions: seq<Action>): Control
    decreases |actions|
  {
    if actions == [] then c else Run(Step(c, actions[0]), actions[1..])
  }

  predicate Possible(c: Control, actions: seq<Action>)
    decreases |actions|
  {
    actions == [] || (Enabled(c, actions[0]) && Possible(Step(c, actions[0]), actions[1..]))
  }

  // --------------------------------------------------------------- invariants

  /** How often the promise of `id` has been settled. */
  function Times(settled: seq<Settlement>, id: nat): nat {
    if settled == [] then 0
    else Times(settled[..|settled| - 1], id) + if settled[|settled| - 1].id == id then 1 else 0
  }

  predicate Increasing(s: seq<nat>) {
    forall i, j :: 0 <= i < j < |s| ==> s[i] < s[j]
  }

  /** The ids of the calls written to the socket, in order. */
  function Called(written: seq<Frame>): seq<nat> {
    if written == [] then []
    else
      var rest := Called(written[..|written| - 1]);
      if written[|written| - 1].CallFrame? then rest + [written[|written| - 1].id] else rest
  }

  /** An id that was handed out is either pending with a running timer or settled once; no other is either. */
  predicate ExactAt(c: Control, id: nat) {
    && (id in c.armed <==> id in c.pending)
    && (id in c.pending ==> 1 <= id <= c.sequence)
    && Times(c.settled, id) == if 1 <= id <= c.sequence && id !in c.pending then 1 else 0
  }

  ghost predicate Exact(c: Control) {
    forall id: nat :: ExactAt(c, id)
  }

  predicate Bounded(c: Control) {
    && |c.pending| <= CALLS && Increasing(c.pending)
    && c.inFlight == c.running + c.answered + c.failing + c.lost <= CALLS
    && (c.ended ==> c.pending == [])
    && (c.lost > 0 ==> c.ended)
  }

  /** The ids on the wire never repeat. */
  predicate Named(c: Control) {
    var ids := Called(c.written);
    Increasing(ids) && forall i :: 0 <= i < |ids| ==> 1 <= ids[i] <= c.sequence
  }

  ghost predicate Inv(c: Control) {
    Exact(c) && Bounded(c) && Named(c)
  }

  lemma {:induction false} WithoutHolds(s: seq<nat>, id: nat)
    requires Increasing(s)
    ensures |Without(s, id)| <= |s|
    ensures forall x :: x in Without(s, id) <==> x in s && x != id
  {
    if s != [] {
      WithoutHolds(s[1..], id);
      assert s == [s[0]] + s[1..];
      assert forall x :: x in s[1..] ==> s[0] < x;
    }
  }

  lemma IncreasingFront(first: nat, rest: seq<nat>)
    requires Increasing(rest) && forall x :: x in rest ==> first < x
    ensures Increasing([first] + rest)
  {
    var all := [first] + rest;
    forall i, j | 0 <= i < j < |all|
      ensures all[i] < all[j]
    {
      assert all[j] == rest[j - 1] && rest[j - 1] in rest;
      if i > 0 {
        assert all[i] == rest[i - 1];
      }
    }
  }

  lemma IncreasingRest(s: seq<nat>)
    requires Increasing(s) && s != []
    ensures Increasing(s[1..]) && forall x :: x in s[1..] ==> s[0] < x
  {
  }

  lemma {:induction false} WithoutIncreases(s: seq<nat>, id: nat)
    requires Increasing(s)
    ensures Increasing(Without(s, id))
  {
    if s != [] {
      IncreasingRest(s);
      WithoutIncreases(s[1..], id);
      if s[0] != id {
        WithoutHolds(s[1..], id);
        IncreasingFront(s[0], Without(s[1..], id));
      }
    }
  }

  lemma WithoutKeeps(s: seq<nat>, id: nat)
    requires Increasing(s)
    ensures Increasing(Without(s, id)) && |Without(s, id)| <= |s|
    ensures forall x :: x in Without(s, id) <==> x in s && x != id
  {
    WithoutHolds(s, id);
    WithoutIncreases(s, id);
  }

  lemma {:induction false} TimesAdd(a: seq<Settlement>, b: seq<Settlement>, id: nat)
    ensures Times(a + b, id) == Times(a, id) + Times(b, id)
  {
    if b == [] {
      assert a + b == a;
    } else {
      var n := |b| - 1;
      TimesAdd(a, b[..n], id);
      assert (a + b)[..|a| + n] == a + b[..n];
    }
  }

  lemma {:induction false} TimesOne(s: Settlement, id: nat)
    ensures Times([s], id) == if s.id == id then 1 else 0
  {
    assert [s][..0] == [];
  }

  /** Closing settles every pending promise once and no other. */
  lemma {:induction false} RejectionsOnce(ids: seq<nat>, id: nat)
    requires Increasing(ids)
    ensures Times(Rejections(ids), id) == if id in ids then 1 else 0
  {
    if ids != [] {
      var n := |ids| - 1;
      RejectionsOnce(ids[..n], id);
      assert Rejections(ids)[..n] == Rejections(ids[..n]);
      assert ids == ids[..n] + [ids[n]];
    }
  }

  lemma {:induction false} SettleExact(c: Control, id: nat, how: How)
    requires Exact(c) && Increasing(c.pending) && id in c.pending
    ensures Exact(Settle(c, id, how))
  {
    WithoutKeeps(c.pending, id);
    forall x: nat
      ensures ExactAt(Settle(c, id, how), x)
    {
      assert ExactAt(c, x) && ExactAt(c, id);
      TimesAdd(c.settled, [Settlement(id, how)], x);
      TimesOne(Settlement(id, how), x);
    }
  }

  lemma {:induction false} EndedExact(c: Control)
    requires Exact(c) && Increasing(c.pending)
    ensures Exact(Ended(c))
  {
    forall id: nat
      ensures ExactAt(Ended(c), id)
    {
      assert ExactAt(c, id);
      TimesAdd(c.settled, Rejections(c.pending), id);
      RejectionsOnce(c.pending, id);
    }
  }

  /** A call's id and timer, before its frame is sent. */
  function Issued(c: Control): Control {
    var id := c.sequence + 1;
    c.(sequence := id, pending := c.pending + [id], armed := c.armed + {id})
  }

  lemma {:induction false} IssuedKeeps(c: Control)
    requires Exact(c) && Bounded(c) && !c.ended && |c.pending| < CALLS
    ensures Exact(Issued(c)) && Bounded(Issued(c)) && c.sequence + 1 !in c.pending
  {
    forall id: nat
      ensures ExactAt(Issued(c), id)
    {
      assert ExactAt(c, id);
    }
    forall i | 0 <= i < |c.pending|
      ensures c.pending[i] <= c.sequence
    {
      assert ExactAt(c, c.pending[i]);
    }
  }

  lemma {:induction false} SameExact(c: Control, d: Control)
    requires Exact(c)
    requires d.settled == c.settled && d.pending == c.pending && d.armed == c.armed && d.sequence == c.sequence
    ensures Exact(d)
  {
    forall id: nat
      ensures ExactAt(d, id)
    {
      assert ExactAt(c, id);
    }
  }

  lemma CalledMore(written: seq<Frame>, f: Frame)
    ensures Called(written + [f]) == if f.CallFrame? then Called(written) + [f.id] else Called(written)
  {
    assert (written + [f])[..|written|] == written;
  }

  lemma {:induction false} StepExact(c: Control, a: Action)
    requires Exact(c) && Bounded(c) && Enabled(c, a)
    ensures Exact(Step(c, a))
  {
    match a
    case Call(fits) =>
      if !c.ended && |c.pending| < CALLS {
        IssuedKeeps(c);
        if fits {
          SameExact(Issued(c), Step(c, a));
        } else {
          SettleExact(Issued(c), c.sequence + 1, NotSent);
        }
      }
    case Reply(id, ok) =>
      if id in c.pending {
        SettleExact(c, id, Replied(ok));
      }
    case Expire(id) =>
      assert ExactAt(c, id);
      SettleExact(c, id, TimedOut);
    case Request(throws) =>
      EndedExact(c);
      SameExact(c, c.(inFlight := c.inFlight + 1, lost := c.lost + 1));
      EndedExact(c.(inFlight := c.inFlight + 1, lost := c.lost + 1));
      SameExact(c, c.(inFlight := c.inFlight + 1, running := c.running + 1));
    case Catch =>
      var d := c.(failing := c.failing - 1, answered := c.answered + 1);
      SameExact(c, d);
      EndedExact(d);
    case Close =>
      EndedExact(c);
    case _ =>
      SameExact(c, Step(c, a));
  }

  lemma {:induction false} StepBounded(c: Control, a: Action)
    requires Exact(c) && Bounded(c) && Enabled(c, a)
    ensures Bounded(Step(c, a))
  {
    match a
    case Call(fits) =>
      if !c.ended && |c.pending| < CALLS {
        IssuedKeeps(c);
        LastOut(c.pending, c.sequence + 1);
      }
    case Reply(id, ok) =>
      WithoutKeeps(c.pending, id);
    case Expire(id) =>
      WithoutKeeps(c.pending, id);
    case _ =>
  }

  lemma {:induction false} LastOut(s: seq<nat>, id: nat)
    requires id !in s
    ensures Without(s + [id], id) == s
  {
    if s != [] {
      LastOut(s[1..], id);
      assert (s + [id])[1..] == s[1..] + [id];
    }
  }

  lemma {:induction false} MoreNamed(c: Control, d: Control, f: Frame)
    requires Named(c) && d.sequence >= c.sequence
    requires d.written == c.written || d.written == c.written + [f]
    requires d.written != c.written && f.CallFrame? ==> f.id == d.sequence == c.sequence + 1
    ensures Named(d)
  {
    CalledMore(c.written, f);
  }

  lemma {:induction false} StepNamed(c: Control, a: Action)
    requires Inv(c) && Enabled(c, a)
    ensures Named(Step(c, a))
  {
    match a
    case Call(_) => MoreNamed(c, Step(c, a), CallFrame(c.sequence + 1));
    case Answer(id, ok, _) => MoreNamed(c, Step(c, a), ReplyFrame(id, ok));
    case _ => MoreNamed(c, Step(c, a), EventFrame);
  }

  lemma StepKeeps(c: Control, a: Action)
    requires Inv(c) && Enabled(c, a)
    ensures Inv(Step(c, a))
  {
    StepExact(c, a);
    StepBounded(c, a);
    StepNamed(c, a);
  }

  lemma {:induction false} RunKeeps(c: Control, actions: seq<Action>)
    requires Inv(c) && Possible(c, actions)
    ensures Inv(Run(c, actions))
    decreases |actions|
  {
    if actions != [] {
      StepKeeps(c, actions[0]);
      RunKeeps(Step(c, actions[0]), actions[1..]);
    }
  }

  lemma {:induction false} InitialInv(c: Control)
    requires Initial(c)
    ensures Inv(c)
  {
    assert Called(c.written) == [];
    forall id: nat
      ensures ExactAt(c, id)
    {
    }
  }

  /** What a reader of the channel sees at any moment. */
  ghost predicate Orderly(c: Control) {
    && |c.pending| <= CALLS && c.inFlight <= CALLS
    && Increasing(Called(c.written))
    && (forall id: nat :: ExactAt(c, id))
    && (c.ended ==> c.pending == [] && c.armed == {})
    && (!c.ended && c.running + c.answered + c.failing == 0 ==> c.inFlight == 0)
  }

  lemma {:induction false} InvOrderly(c: Control)
    requires Inv(c)
    ensures Orderly(c)
  {
    assert forall id: nat :: ExactAt(c, id) ==> (id in c.armed <==> id in c.pending);
  }

  /**
   Whatever the parent, the timers and the request handlers do: no promise is settled twice, an
   unsettled one is still pending with its timer, ids never repeat, and both counts stay bounded.
   */
  lemma {:induction false} SettledExactlyOnce(c: Control, actions: seq<Action>)
    requires Initial(c) && Possible(c, actions)
    ensures Orderly(Run(c, actions))
  {
    InitialInv(c);
    RunKeeps(c, actions);
    InvOrderly(Run(c, actions));
  }

  lemma {:induction false} StepIsFinal(c: Control, a: Action)
    requires Inv(c) && Enabled(c, a)
    ensures var d := Step(c, a);
            && c.settled <= d.settled && c.written <= d.written && c.sequence <= d.sequence
            && (c.ended ==> d.ended && d.pending == c.pending && d.armed == c.armed && d.sequence == c.sequence
                            && d.settled == c.settled && d.written == c.written)
  {
    InvOrderly(c);
  }

  /** What happens next never takes back a settlement; after close nothing is added or written. */
  lemma {:induction false} CloseIsFinal(c: Control, actions: seq<Action>)
    requires Inv(c) && Possible(c, actions)
    ensures var d := Run(c, actions);
            && c.settled <= d.settled && c.written <= d.written && c.sequence <= d.sequence
            && (c.ended ==> d.ended && d.pending == [] && d.armed == {} && d.sequence == c.sequence
                            && d.settled == c.settled && d.written == c.written)
    decreases |actions|
  {
    if actions == [] {
      InvOrderly(c);
    } else {
      StepKeeps(c, actions[0]);
      StepIsFinal(c, actions[0]);
      CloseIsFinal(Step(c, actions[0]), actions[1..]);
    }
  }

  /** Once closed, every call that ever got an id has been settled. */
  lemma {:induction false} ClosedSettlesAll(c: Control, actions: seq<Action>, id: nat)
    requires Initial(c) && Possible(c, actions) && Run(c, actions).ended && 1 <= id <= Run(c, actions).sequence
    ensures Times(Run(c, actions).settled, id) == 1
  {
    SettledExactlyOnce(c, actions);
    assert ExactAt(Run(c, actions), id);
  }

  // ------------------------------------------------------------------ the object

  class Channel {
    var sequence: nat
    var pending: seq<nat>
    var armed: set<nat>
    var ended: bool
    var inFlight: nat
    var running: nat
    var answered: nat
    var failing: nat
    var lost: nat
    var settled: seq<Settlement>
    var written: seq<Frame>

    constructor ()
      ensures Initial(View())
    {
      sequence, pending, armed, ended, inFlight := 0, [], {}, false, 0;
      running, answered, failing, lost := 0, 0, 0, 0;
      settled, written := [], [];
    }

    function View(): Control
      reads this
    {
      Control(sequence, pending, armed, ended, inFlight, running, answered, failing, lost, settled, written)
    }

    method Send(frame: Frame, fits: bool) returns (sent: bool)
      modifies `written
      ensures sent == (!ended && fits)
      ensures written == old(written) + if sent then [frame] else []
    {
      sent := !ended && fits;
      if sent {
        written := written + [frame];
      }
    }

    method Settled(id: nat, how: How)
      modifies `pending, `armed, `settled
      ensures View() == Settle(old(View()), id, how)
    {
      pending := Without(pending, id);
      armed := armed - {id};
      settled := settled + [Settlement(id, how)];
    }

    method Call(fits: bool) returns (accepted: bool)
      modifies this
      ensures View() == Step(old(View()), Action.Call(fits))
      ensures accepted == (!old(ended) && |old(pending)| < CALLS)
    {
      if ended || |pending| >= CALLS {
        return false;
      }
      accepted := true;
      sequence := sequence + 1;
      var id := sequence;
      armed := armed + {id};
      pending := pending + [id];
      var sent := Send(CallFrame(id), fits);
      if !sent {
        Settled(id, NotSent);
      }
    }

    method Receive(id: nat, ok: bool)
      modifies this
      ensures View() == Step(old(View()), Reply(id, ok))
    {
      if id !in pending {
        return;
      }
      Settled(id, Replied(ok));
    }

    method OnTimer(id: nat)
      requires id in armed
      modifies this
      ensures View() == Step(old(View()), Expire(id))
    {
      Settled(id, TimedOut);
    }

    /** A request frame; the seventeenth at once, or a handler that throws, closes the channel. */
    method OnRequest(throws: bool)
      modifies this
      ensures View() == Step(old(View()), Request(throws))
    {
      if inFlight >= CALLS {
        Close();
        return;
      }
      inFlight := inFlight + 1;
      if throws {
        lost := lost + 1;
        Close();
      } else {
        running := running + 1;
      }
    }

    method OnAnswer(id: nat, ok: bool, fits: bool)
      requires running > 0
      modifies this
      ensures View() == Step(old(View()), Answer(id, ok, fits))
    {
      running := running - 1;
      var sent := Send(ReplyFrame(id, ok), fits);
      if sent {
        answered := answered + 1;
      } else {
        failing := failing + 1;
      }
    }

    method OnCatch()
      requires failing > 0
      modifies this
      ensures View() == Step(old(View()), Catch)
    {
      failing, answered := failing - 1, answered + 1;
      Close();
    }

    method OnFinish()
      requires answered > 0 && inFlight > 0
      modifies this
      ensures View() == Step(old(View()), Finish)
    {
      answered, inFlight := answered - 1, inFlight - 1;
    }

    method Emit(fits: bool) returns (sent: bool)
      modifies this
      ensures View() == Step(old(View()), Action.Emit(fits))
      ensures sent == (!old(ended) && fits)
    {
      sent := Send(EventFrame, fits);
    }

    method Close()
      modifies this
      ensures View() == Ended(old(View()))
    {
      if ended {
        return;
      }
      ended := true;
      var i := 0;
      while i < |pending|
        invariant 0 <= i <= |pending| && pending == old(pending)
        invariant settled == old(settled) + Rejections(pending)[..i]
        invariant armed == old(armed) - set id | id in pending[..i]
        invariant ended && sequence == old(sequence) && inFlight == old(inFlight) && written == old(written)
        invariant running == old(running) && answered == old(answered) && failing == old(failing) && lost == old(lost)
      {
        armed := armed - {pending[i]};
        settled := settled + [Settlement(pending[i], Closed)];
        i := i + 1;
      }
      assert pending[..i] == pending;
      assert Rejections(pending)[..i] == Rejections(pending);
      pending := [];
    }
  }
}
