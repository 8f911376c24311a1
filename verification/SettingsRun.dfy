/**
 One settings task: apply, preview, keep or restore, while other writers change the machine,
 native calls fail and permission lapses. Every answer of the outside world is a function of how
 many native steps came before it, so an arbitrary environment is an arbitrary `Env`.
 */
module SettingsRun {
  import opened SettingsChange

  datatype Action = Read | Open | Change(expected: nat, before: Snapshot, patch: Patch)

  datatype Input = Input(request: nat, action: Action)

  datatype Marker = Marker(request: nat, keep: bool)

  datatype Window = Within | Past | Unreadable

  datatype Observation = Seen(targets: seq<Target>) | Unseen(error: Error)

  /** How writing and flushing one row to standard output went; a torn row lost its end and its line break. */
  datatype Delivery = Sent | Dropped | Torn | Unflushed

  datatype Effect = Observed | OpenRequested | Preview | Applied | Restored | Conflicted | Failed | Unknown

  datatype Row = Row(finished: bool, effect: Effect, snapshot: Option<seq<Target>>, keepBefore: bool)

  datatype Env = Env(
    admitted: bool, mac: bool, clock: bool, valid: Patch -> bool,
    snapshot: nat -> Observation, open: nat -> Option<Error>, apply: nat -> Option<Error>,
    preserve: nat -> Option<Error>, finish: nat -> Option<Error>,
    live: nat -> bool, marker: nat -> Option<Marker>, window: nat -> Window,
    delivery: nat -> Delivery, last: nat -> Delivery, size: Row -> nat)

  /** What happened, in order. */
  datatype Event =
    | Saw(targets: seq<Target>)
    | Blind
    | Opening(ok: bool)
    | Applying(ok: bool)
    | Preserving(ok: bool)
    | Finishing(keep: bool, ok: bool)
    | Permission(live: bool)
    | MarkerRead(marker: Option<Marker>)

  const OUTPUT: nat := 262144

  predicate IsDisplay(a: Action) {
    a.Change? && a.patch.DisplayPatch?
  }

  // ------------------------------------------------- where a display change stands

  /** What an outside observer knows about the display after the events so far. */
  datatype Standing =
    | Untouched                          // nothing was ever applied
    | Begun(shown: Option<seq<Target>>)  // a preview may be on screen; `shown` is what was seen after it
    | Differing                          // other values than that preview were seen, but not the original ones
    | Back                               // the original values were read back
    | Handed                             // macOS was told to preserve the values that are there
    | Done                               // kept or restored, not yet read back
    | Confirmed                          // kept or restored, and read back

  function Advance(a: Action, s: Standing, e: Event): Standing
    requires a.Change?
  {
    match e
    case Applying(_) => Begun(None)
    case Preserving(ok) => if ok then Handed else Begun(None)
    case Finishing(_, ok) => if ok then Done else Begun(None)
    case Saw(t) =>
      (match s
       case Begun(shown) =>
         if t == a.before.targets then Back
         else if shown == Some(t) then s
         else if shown.None? && Shows(a.patch, t) then Begun(Some(t))
         else Differing
       case Differing => if t == a.before.targets then Back else s
       case Done => Confirmed
       case _ => s)
    case _ => s
  }

  function StandingOf(a: Action, trace: seq<Event>): Standing
    requires a.Change?
  {
    if trace == [] then Untouched
    else Advance(a, StandingOf(a, trace[..|trace| - 1]), trace[|trace| - 1])
  }

  lemma StandingMore(a: Action, trace: seq<Event>, e: Event)
    requires a.Change?
    ensures StandingOf(a, trace + [e]) == Advance(a, StandingOf(a, trace), e)
  {
    assert (trace + [e])[..|trace|] == trace;
  }

  /** What a transaction that calls itself closed may have left: on Windows also values nobody vouches for. */
  predicate Closes(mac: bool, s: Standing) {
    !s.Begun? && !s.Done? && (s.Differing? ==> !mac)
  }

  predicate Shows(p: Patch, t: seq<Target>) {
    Satisfied(p, t) && (p.DisplayPatch? ==> CheckedTarget(p, t).1.None?)
  }

  // --------------------------------------------- what a preview that is left behind is

  predicate Writes(e: Event) {
    e.Applying? || e.Preserving? || e.Finishing?
  }

  /** The last write to the display did not end the preview, and the original values were not read back since. */
  ghost predicate LeftAt(a: Action, trace: seq<Event>, m: nat)
    requires a.Change?
  {
    && m < |trace|
    && (trace[m].Applying? || trace[m] == Preserving(false) || (trace[m].Finishing? && !trace[m].ok))
    && forall j :: m < j < |trace| ==> !Writes(trace[j]) && trace[j] != Saw(a.before.targets)
  }

  /** The transaction's own preview may still be on screen. */
  ghost predicate PreviewLeft(a: Action, trace: seq<Event>)
    requires a.Change?
  {
    exists m: nat :: LeftAt(a, trace, m)
  }

  /** The first observation after the write at `m`. */
  ghost predicate FirstLook(trace: seq<Event>, m: nat, i: nat) {
    m < i < |trace| && trace[i].Saw? && forall j :: m < j < i ==> !trace[j].Saw?
  }

  /** Between the last write and now, other values were read than the edit that was asked for and then shown. */
  ghost predicate DiffersAt(a: Action, trace: seq<Event>, m: nat, i: nat)
    requires a.Change?
  {
    && LeftAt(a, trace, m) && FirstLook(trace, m, i)
    && (!Shows(a.patch, trace[i].targets)
        || exists k :: i < k < |trace| && trace[k].Saw? && trace[k] != trace[i])
  }

  ghost predicate Differs(a: Action, trace: seq<Event>)
    requires a.Change?
  {
    exists m: nat, i: nat :: DiffersAt(a, trace, m, i)
  }

  /** What was shown since the write at `m`: the requested edit, and nothing else. */
  ghost predicate ShownAt(a: Action, trace: seq<Event>, m: nat, i: nat, v: seq<Target>)
    requires a.Change?
  {
    && LeftAt(a, trace, m) && FirstLook(trace, m, i) && trace[i] == Saw(v) && Shows(a.patch, v)
    && forall k :: i < k < |trace| && trace[k].Saw? ==> trace[k] == Saw(v)
  }

  ghost predicate UnseenAt(a: Action, trace: seq<Event>, m: nat)
    requires a.Change?
  {
    LeftAt(a, trace, m) && forall j :: m < j < |trace| ==> !trace[j].Saw?
  }

  /** A standing says what the trace says. */
  ghost predicate Means(a: Action, trace: seq<Event>, s: Standing)
    requires a.Change?
  {
    match s
    case Begun(None) => exists m: nat :: UnseenAt(a, trace, m)
    case Begun(Some(v)) => exists m: nat, i: nat :: ShownAt(a, trace, m, i, v)
    case Differing => Differs(a, trace)
    case _ => !PreviewLeft(a, trace)
  }

  /** Only one write can be the last one. */
  lemma OneLast(a: Action, trace: seq<Event>, m: nat, m': nat)
    requires a.Change? && LeftAt(a, trace, m) && LeftAt(a, trace, m')
    ensures m == m'
  {
    if m < m' {
      assert Writes(trace[m']);
    } else if m' < m {
      assert Writes(trace[m]);
    }
  }

  lemma StillLeft(a: Action, trace: seq<Event>, e: Event, m: nat)
    requires a.Change? && m < |trace|
    ensures LeftAt(a, trace + [e], m) <==> LeftAt(a, trace, m) && !Writes(e) && e != Saw(a.before.targets)
  {
    var all := trace + [e];
    assert all[|trace|] == e && forall j :: 0 <= j < |trace| ==> all[j] == trace[j];
  }

  /** A write decides on its own whether a preview is left. */
  lemma AfterWrite(a: Action, trace: seq<Event>, e: Event)
    requires a.Change? && Writes(e)
    ensures Means(a, trace + [e], Advance(a, StandingOf(a, trace), e))
  {
    var all := trace + [e];
    if Advance(a, StandingOf(a, trace), e).Begun? {
      assert UnseenAt(a, all, |trace|);
    } else {
      forall m: nat ensures !LeftAt(a, all, m) {
        if m < |trace| {
          StillLeft(a, trace, e, m);
        }
      }
    }
  }

  /** Without a write, nothing that was not left is left. */
  lemma NothingLeft(a: Action, trace: seq<Event>, e: Event)
    requires a.Change? && !Writes(e) && (e == Saw(a.before.targets) || !PreviewLeft(a, trace))
    ensures !PreviewLeft(a, trace + [e])
  {
    forall m: nat ensures !LeftAt(a, trace + [e], m) {
      if m < |trace| {
        StillLeft(a, trace, e, m);
      }
    }
  }

  lemma StillDiffers(a: Action, trace: seq<Event>, e: Event)
    requires a.Change? && !Writes(e) && e != Saw(a.before.targets) && Differs(a, trace)
    ensures Differs(a, trace + [e])
  {
    var m: nat, i: nat :| DiffersAt(a, trace, m, i);
    StillLeft(a, trace, e, m);
    var all := trace + [e];
    assert forall j :: 0 <= j < |trace| ==> all[j] == trace[j];
    if Shows(a.patch, trace[i].targets) {
      var k :| i < k < |trace| && trace[k].Saw? && trace[k] != trace[i];
      assert all[k] != all[i];
    }
    assert DiffersAt(a, all, m, i);
  }

  /** An event that is no write, while a preview that was not looked at is left. */
  lemma AfterUnseen(a: Action, trace: seq<Event>, e: Event)
    requires a.Change? && !Writes(e) && e != Saw(a.before.targets) && Means(a, trace, Begun(None))
    ensures Means(a, trace + [e], Advance(a, Begun(None), e))
  {
    var m: nat :| UnseenAt(a, trace, m);
    StillLeft(a, trace, e, m);
    var all := trace + [e];
    assert all[|trace|] == e && forall j :: 0 <= j < |trace| ==> all[j] == trace[j];
    if e.Saw? {
      assert FirstLook(all, m, |trace|);
      if Shows(a.patch, e.targets) {
        assert ShownAt(a, all, m, |trace|, e.targets);
      } else {
        assert DiffersAt(a, all, m, |trace|);
      }
    } else {
      assert UnseenAt(a, all, m);
    }
  }

  lemma AfterShown(a: Action, trace: seq<Event>, e: Event, v: seq<Target>)
    requires a.Change? && !Writes(e) && e != Saw(a.before.targets) && Means(a, trace, Begun(Some(v)))
    ensures Means(a, trace + [e], Advance(a, Begun(Some(v)), e))
  {
    var m: nat, i: nat :| ShownAt(a, trace, m, i, v);
    StillLeft(a, trace, e, m);
    var all := trace + [e];
    assert all[|trace|] == e && forall j :: 0 <= j < |trace| ==> all[j] == trace[j];
    assert FirstLook(all, m, i);
    if e.Saw? && e.targets != v {
      assert DiffersAt(a, all, m, i);
    } else {
      assert ShownAt(a, all, m, i, v);
    }
  }

  /** The running summary says what the whole trace says, for every trace. */
  lemma {:induction false} StandingMeans(a: Action, trace: seq<Event>)
    requires a.Change?
    ensures Means(a, trace, StandingOf(a, trace))
  {
    if trace != [] {
      var n := |trace| - 1;
      var (t, e, s) := (trace[..n], trace[n], StandingOf(a, trace[..n]));
      StandingMeans(a, t);
      assert trace == t + [e];
      if Writes(e) {
        AfterWrite(a, t, e);
      } else if e == Saw(a.before.targets) {
        NothingLeft(a, t, e);
      } else if s.Differing? {
        StillDiffers(a, t, e);
      } else if !s.Begun? {
        NothingLeft(a, t, e);
      } else if s.shown.None? {
        AfterUnseen(a, t, e);
      } else {
        AfterShown(a, t, e, s.shown.value);
      }
    }
  }

  /** A preview is left exactly in two standings, and other values were read exactly in one of them. */
  lemma LeftExactly(a: Action, trace: seq<Event>)
    requires a.Change?
    ensures PreviewLeft(a, trace) <==> StandingOf(a, trace).Begun? || StandingOf(a, trace).Differing?
    ensures Differs(a, trace) <==> StandingOf(a, trace).Differing?
  {
    StandingMeans(a, trace);
    var s := StandingOf(a, trace);
    if Differs(a, trace) {
      var m: nat, i: nat :| DiffersAt(a, trace, m, i);
      assert LeftAt(a, trace, m);
      if s == Begun(None) {
        var m': nat :| UnseenAt(a, trace, m');
        OneLast(a, trace, m, m');
      } else if s.Begun? {
        var m': nat, i': nat :| ShownAt(a, trace, m', i', s.shown.value);
        OneLast(a, trace, m, m');
      }
    }
    match s {
      case Begun(None) =>
        var m: nat :| UnseenAt(a, trace, m);
        assert LeftAt(a, trace, m);
      case Begun(Some(v)) =>
        var m: nat, i: nat :| ShownAt(a, trace, m, i, v);
        assert LeftAt(a, trace, m);
      case _ =>
    }
  }

  // ------------------------------------------------------------- what rows may say

  /** The event `k` places before the end. */
  function Ago(trace: seq<Event>, k: nat): Option<Event> {
    if k < |trace| then Some(trace[|trace| - 1 - k]) else None
  }

  /** A preview is made permanent only then: matching decision, permission never seen missing, nobody else wrote. */
  ghost predicate MayKeep(input: Input, trace: seq<Event>) {
    && IsDisplay(input.action)
    && MarkerRead(Some(Marker(input.request, true))) in trace
    && Permission(false) !in trace
    && Ago(trace, 0) == Some(Permission(true))
    && Ago(trace, 1).Some? && Ago(trace, 1).value.Saw?
    && Previewed(input.action.patch, trace, Ago(trace, 1).value.targets)
  }

  /** These values were read right after a successful apply and showed the requested edit. */
  ghost predicate Previewed(p: Patch, trace: seq<Event>, t: seq<Target>) {
    exists k :: 0 < k < |trace| && trace[k - 1] == Applying(true) && trace[k] == Saw(t) && Shows(p, t)
  }

  /** No keep was ever asked of the system without leave, in the whole run. */
  ghost predicate Careful(input: Input, trace: seq<Event>) {
    forall k :: 0 <= k < |trace| && trace[k].Finishing? && trace[k].keep ==> MayKeep(input, trace[..k])
  }

  /** The user chose to keep the preview and the login was never seen to be gone. */
  predicate Wanted(input: Input, trace: seq<Event>) {
    MarkerRead(Some(Marker(input.request, true))) in trace && Permission(false) !in trace
  }

  ghost predicate Honest(input: Input, mac: bool, trace: seq<Event>, row: Row) {
    && (row.snapshot.Some? ==> LastSeen(trace, row.snapshot.value))
    && match row.effect
       case Observed => input.action.Read? && row.snapshot.Some? && Ago(trace, 0) == Some(Saw(row.snapshot.value))
       case OpenRequested => input.action.Open? && Ago(trace, 0) == Some(Opening(true))
       case Preview => !row.finished && row.keepBefore
       case Applied =>
         && input.action.Change? && row.snapshot.Some? && Satisfied(input.action.patch, row.snapshot.value)
         && Ago(trace, 0) == Some(Saw(row.snapshot.value))
         && Ago(trace, 1) == Some(if IsDisplay(input.action) then Finishing(true, true) else Applying(true))
       case Restored =>
         && IsDisplay(input.action) && row.snapshot == Some(input.action.before.targets)
         && Ago(trace, 0) == Some(Saw(input.action.before.targets)) && Ago(trace, 1) == Some(Finishing(false, true))
         && !Wanted(input, trace)
       case Conflicted => !Settles(input.action, trace)
       case Failed =>
         input.action.Change? ==>
           && IsDisplay(input.action) && row.snapshot.Some? && Ago(trace, 0) == Some(Saw(row.snapshot.value))
           && DisplayStateEqual(row.snapshot.value, input.action.before.targets)
           && (PreviewLeft(input.action, trace) ==> !mac && Differs(input.action, trace))
       case _ => true
  }

  /** The trace ends with what was asked for: kept and shown, or restored and back. */
  predicate Settles(a: Action, trace: seq<Event>) {
    && IsDisplay(a)
    && Ago(trace, 0).Some? && Ago(trace, 0).value.Saw?
    && Ago(trace, 1).Some? && Ago(trace, 1).value.Finishing? && Ago(trace, 1).value.ok
    && var t := Ago(trace, 0).value.targets;
       if Ago(trace, 1).value.keep then Satisfied(a.patch, t) else t == a.before.targets
  }

  /** A keep or restore that succeeded is always read back. */
  predicate ReadBack(trace: seq<Event>) {
    Ago(trace, 0).Some? && Ago(trace, 0).value.Finishing? ==> !Ago(trace, 0).value.ok
  }

  /** No decision was looked for yet. */
  predicate Undecided(trace: seq<Event>) {
    forall k :: 0 <= k < |trace| ==> !Quiet(trace[k])
  }

  /** The last observation in the trace. */
  ghost predicate LastSeen(trace: seq<Event>, t: seq<Target>) {
    exists k :: 0 <= k < |trace| && trace[k] == Saw(t) && forall j :: k < j < |trace| ==> !trace[j].Saw?
  }

  predicate Quiet(e: Event) {
    e.Permission? || e.MarkerRead?
  }

  predicate AllQuiet(events: seq<Event>) {
    forall k :: 0 <= k < |events| ==> Quiet(events[k])
  }

  lemma {:induction false} StandingQuiet(a: Action, trace: seq<Event>, more: seq<Event>)
    requires a.Change? && AllQuiet(more)
    ensures StandingOf(a, trace + more) == StandingOf(a, trace)
  {
    if more == [] {
      assert trace + more == trace;
    } else {
      var n := |more| - 1;
      StandingQuiet(a, trace, more[..n]);
      StandingMore(a, trace + more[..n], more[n]);
      assert trace + more == trace + more[..n] + [more[n]];
    }
  }

  lemma CarefulMore(input: Input, trace: seq<Event>, e: Event)
    requires Careful(input, trace) && (e.Finishing? && e.keep ==> MayKeep(input, trace))
    ensures Careful(input, trace + [e])
  {
    var all := trace + [e];
    forall k | 0 <= k < |all| && all[k].Finishing? && all[k].keep
      ensures MayKeep(input, all[..k])
    {
      assert all[..k] == trace[..k];
      assert trace[..|trace|] == trace;
    }
  }

  lemma {:induction false} CarefulQuiet(input: Input, trace: seq<Event>, more: seq<Event>)
    requires Careful(input, trace) && AllQuiet(more)
    ensures Careful(input, trace + more)
  {
    var all := trace + more;
    forall k | 0 <= k < |all| && all[k].Finishing? && all[k].keep
      ensures MayKeep(input, all[..k])
    {
      assert all[..k] == trace[..k];
    }
  }

  lemma SawLast(trace: seq<Event>, t: seq<Target>)
    ensures LastSeen(trace + [Saw(t)], t)
  {
    assert (trace + [Saw(t)])[|trace|] == Saw(t);
  }

  lemma StillLast(trace: seq<Event>, t: seq<Target>, e: Event)
    requires LastSeen(trace, t) && !e.Saw?
    ensures LastSeen(trace + [e], t)
  {
    var k :| 0 <= k < |trace| && trace[k] == Saw(t) && forall j :: k < j < |trace| ==> !trace[j].Saw?;
    assert (trace + [e])[k] == Saw(t);
  }

  /** The trace right after an apply whose values were read back as requested. */
  ghost predicate JustShown(a: Action, trace: seq<Event>, shown: seq<Target>) {
    && IsDisplay(a) && Shows(a.patch, shown)
    && Ago(trace, 0) == Some(Saw(shown)) && Ago(trace, 1) == Some(Applying(true))
  }

  lemma ShownStanding(a: Action, trace: seq<Event>, shown: seq<Target>)
    requires JustShown(a, trace, shown)
    ensures StandingOf(a, trace) == if shown == a.before.targets then Back else Begun(Some(shown))
  {
    var n := |trace|;
    assert trace == trace[..n - 2] + [Applying(true)] + [Saw(shown)];
    StandingMore(a, trace[..n - 2] + [Applying(true)], Saw(shown));
    StandingMore(a, trace[..n - 2], Applying(true));
  }

  /** Values other than the preview that was shown are either the original or nobody's in particular. */
  lemma {:induction false} OthersStanding(a: Action, trace: seq<Event>, shown: seq<Target>, quiet: seq<Event>,
                                          actual: seq<Target>)
    requires JustShown(a, trace, shown) && AllQuiet(quiet) && actual != shown
    ensures Closes(false, StandingOf(a, trace + quiet + [Saw(actual)]))
  {
    ShownStanding(a, trace, shown);
    StandingQuiet(a, trace, quiet);
    StandingMore(a, trace + quiet, Saw(actual));
  }

  lemma WantedMore(input: Input, quiet: seq<Event>, live: bool)
    ensures Wanted(input, quiet + [Permission(live)]) <==> Wanted(input, quiet) && live
  {
    if Permission(false) in quiet {
      assert Permission(false) in quiet + [Permission(live)];
    }
    assert live || (quiet + [Permission(live)])[|quiet|] == Permission(false);
  }

  /** Only what is read while waiting decides. */
  lemma WantedAll(input: Input, trace: seq<Event>, quiet: seq<Event>, t: seq<Target>, live: bool)
    requires Undecided(trace)
    ensures Wanted(input, trace + quiet + [Saw(t)] + [Permission(live)]) <==> Wanted(input, quiet) && live
  {
    var m := MarkerRead(Some(Marker(input.request, true)));
    assert forall e: Event :: Quiet(e) ==> e !in trace;
    assert m in trace + quiet + [Saw(t)] <==> m in quiet;
    assert Permission(false) in trace + quiet + [Saw(t)] <==> Permission(false) in quiet;
    WantedMore(input, trace + quiet + [Saw(t)], live);
  }

  /** An observation settles nothing unless a keep or restore succeeded right before it. */
  lemma NothingSettled(a: Action, trace: seq<Event>, e: Event)
    requires ReadBack(trace) || !e.Saw?
    ensures !Settles(a, trace + [e])
    ensures !(e.Finishing? && e.ok) ==> ReadBack(trace + [e])
  {
    assert Ago(trace + [e], 0) == Some(e);
    assert trace != [] ==> Ago(trace + [e], 1) == Ago(trace, 0);
  }

  lemma KeepAllowed(input: Input, trace: seq<Event>, shown: seq<Target>, quiet: seq<Event>)
    requires JustShown(input.action, trace, shown) && Undecided(trace) && Wanted(input, quiet)
    ensures MayKeep(input, trace + quiet + [Saw(shown)] + [Permission(true)])
  {
    var all := trace + quiet + [Saw(shown)] + [Permission(true)];
    var n := |trace|;
    assert all[n - 2] == trace[n - 2] == Applying(true) && all[n - 1] == trace[n - 1] == Saw(shown);
    assert all[|all| - 1] == Permission(true) && all[|all| - 2] == Saw(shown);
    assert Previewed(input.action.patch, all, shown);
  }

  /** The effect of a keep or restore that succeeded, by what was read back. */
  function Concluded(a: Action, keep: bool, t: seq<Target>): Effect
    requires IsDisplay(a)
  {
    if keep && Satisfied(a.patch, t) then Applied
    else if !keep && t == a.before.targets then Restored
    else Conflicted
  }

  lemma ConcludedStanding(a: Action, trace: seq<Event>, keep: bool, t: seq<Target>)
    requires IsDisplay(a)
    ensures StandingOf(a, trace + [Finishing(keep, true)] + [Saw(t)]) == Confirmed
  {
    StandingMore(a, trace, Finishing(keep, true));
    StandingMore(a, trace + [Finishing(keep, true)], Saw(t));
  }

  lemma ConcludedHonest(input: Input, mac: bool, trace: seq<Event>, keep: bool, t: seq<Target>)
    requires IsDisplay(input.action) && (keep || !Wanted(input, trace))
    ensures var all := trace + [Finishing(keep, true)] + [Saw(t)];
            Honest(input, mac, all, Row(true, Concluded(input.action, keep, t), Some(t), false)) && ReadBack(all)
  {
    var all := trace + [Finishing(keep, true)] + [Saw(t)];
    SawLast(trace + [Finishing(keep, true)], t);
    assert Ago(all, 0) == Some(Saw(t)) && Ago(all, 1) == Some(Finishing(keep, true));
    var m := MarkerRead(Some(Marker(input.request, true)));
    assert (m in all <==> m in trace) && (Permission(false) in all <==> Permission(false) in trace);
  }

  // --------------------------------------------------------------------- output

  datatype Out = Line(row: Row) | Fragment

  predicate OneFinished(output: seq<Row>) {
    && 1 <= |output| <= 2 && output[|output| - 1].finished
    && (|output| == 2 ==> !output[0].finished && output[0].effect == Preview)
  }

  function Lines(output: seq<Row>): seq<Out> {
    seq(|output|, i requires 0 <= i < |output| => Line(output[i]))
  }

  /** Standard output ends inside a row, so that whatever is written next continues that line. */
  predicate EndsTorn(stdout: seq<Out>) {
    stdout != [] && stdout[|stdout| - 1].Fragment?
  }

  /** How many finished rows standard output carries as lines of their own. */
  function FinishedOn(stdout: seq<Out>): nat {
    if stdout == [] then 0
    else
      var (rest, last) := (stdout[..|stdout| - 1], stdout[|stdout| - 1]);
      FinishedOn(rest) + if last.Line? && last.row.finished && !EndsTorn(rest) then 1 else 0
  }

  lemma FinishedMore(stdout: seq<Out>, o: Out)
    ensures FinishedOn(stdout + [o])
         == FinishedOn(stdout) + if o.Line? && o.row.finished && !EndsTorn(stdout) then 1 else 0
  {
    assert (stdout + [o])[..|stdout|] == stdout;
  }

  lemma OneLine(output: seq<Row>)
    requires OneFinished(output)
    ensures FinishedOn(Lines(output)) == 1
  {
    var n := |output| - 1;
    assert Lines(output) == Lines(output[..n]) + [Line(output[n])];
    FinishedMore(Lines(output[..n]), Line(output[n]));
    if n == 1 {
      assert Lines(output[..n]) == [] + [Line(output[0])];
      FinishedMore([], Line(output[0]));
    }
  }

  /** `Aborted` ends without a completion record, so the runner learns nothing from the rows. */
  datatype Result = Refused | Aborted | Completed(closed: bool)

  // --------------------------------------------- a preview that Windows adjusted

  /** After one look, the edit is applied, and what is read back is neither the edit nor what was there before. */
  predicate Adjusts(env: Env, input: Input) {
    && IsDisplay(input.action) && !env.mac && env.apply(1).None?
    && env.snapshot(2).Seen?
    && !Shows(input.action.patch, env.snapshot(2).targets)
    && env.snapshot(2).targets != input.action.before.targets
  }

  function AdjustedRow(env: Env): Row {
    Row(true, Conflicted, if env.snapshot(2).Seen? then Some(env.snapshot(2).targets) else None, false)
  }

  predicate AdjustedTrace(a: Action, trace: seq<Event>)
    requires a.Change?
  {
    |trace| == 3 && trace[1] == Applying(true) && trace[2].Saw? && trace[2] != Saw(a.before.targets)
  }

  lemma AdjustedLeaves(a: Action, trace: seq<Event>)
    requires a.Change? && AdjustedTrace(a, trace)
    ensures PreviewLeft(a, trace)
  {
    assert LeftAt(a, trace, 1);
  }

  /** The same targets, but one field of one target shows another value. */
  function Shown(targets: seq<Target>, id: string, key: string, v: Value): seq<Target> {
    if targets == [] then []
    else
      var first := if targets[0].id == id then Showing(targets[0], key, v) else targets[0];
      [first] + Shown(targets[1..], id, key, v)
  }

  function Showing(t: Target, key: string, v: Value): Target {
    t.(fields := seq(|t.fields|, i requires 0 <= i < |t.fields| =>
         if t.fields[i].key == key then t.fields[i].(value := Some(v)) else t.fields[i]))
  }

  lemma {:induction false} FindShown(targets: seq<Target>, id: string, key: string, v: Value)
    requires Find(targets, id).Some?
    ensures Find(Shown(targets, id, key, v), id) == Some(Showing(Find(targets, id).value, key, v))
  {
    if targets[0].id != id {
      assert Shown(targets, id, key, v)[1..] == Shown(targets[1..], id, key, v);
      FindShown(targets[1..], id, key, v);
    }
  }

  lemma {:induction false} HasField(fields: seq<Field>, key: string) returns (i: nat)
    requires ValueAt(fields, key).Some?
    ensures i < |fields| && fields[i].key == key
  {
    if fields[0].key == key {
      i := 0;
    } else {
      i := HasField(fields[1..], key);
      i := i + 1;
    }
  }

  /** Two values cannot both be what was there before, and a value that was not asked for is not shown. */
  lemma ShownDiffers(targets: seq<Target>, id: string, key: string, v: Value, w: Value)
    requires Find(targets, id).Some? && SettingValue(Find(targets, id).value, key).Some? && v != w
    ensures Shown(targets, id, key, v) != Shown(targets, id, key, w)
    ensures var found := Find(Shown(targets, id, key, v), id); found.Some? && !Reads(found.value, key, w)
  {
    var t := Find(targets, id).value;
    FindShown(targets, id, key, v);
    FindShown(targets, id, key, w);
    var i := HasField(t.fields, key);
    assert Showing(t, key, v).fields[i].value != Showing(t, key, w).fields[i].value;
  }

  /** What Windows may show for an accepted edit: the edited field, with neither the old value nor the new one. */
  lemma SomethingElse(p: Patch, before: seq<Target>, current: seq<Target>) returns (adjusted: seq<Target>)
    requires p.DisplayPatch? && CheckChange(p, before, current).None?
    ensures !Shows(p, adjusted) && adjusted != before
    ensures EditedFields(p) != {} ==>
              exists key, v :: key in EditedFields(p) && adjusted == Shown(before, p.target, key, v)
  {
    var id := p.target;
    if p.mode.Some? {
      assert "mode" in EditedFields(p);
      var (a, b, w) := (Text(p.mode.value + "~"), Text(p.mode.value + "~~"), Text(p.mode.value));
      assert |a.text| != |b.text| && |a.text| != |w.text| && |b.text| != |w.text|;
      ShownDiffers(before, id, "mode", a, b);
      ShownDiffers(before, id, "mode", a, w);
      ShownDiffers(before, id, "mode", b, w);
      adjusted := if Shown(before, id, "mode", a) != before then Shown(before, id, "mode", a)
                  else Shown(before, id, "mode", b);
    } else if p.origin.Some? {
      assert "origin" in EditedFields(p);
      var (x, y) := p.origin.value;
      var (a, b, w) := (Place(x + 1, y), Place(x + 2, y), Place(x, y));
      ShownDiffers(before, id, "origin", a, b);
      ShownDiffers(before, id, "origin", a, w);
      ShownDiffers(before, id, "origin", b, w);
      adjusted := if Shown(before, id, "origin", a) != before then Shown(before, id, "origin", a)
                  else Shown(before, id, "origin", b);
    } else {
      adjusted := [];
    }
  }

  /** Every display change that is accepted can be adjusted, by nothing but another value of an edited field. */
  lemma AnyAdjusted(env: Env, input: Input, current: seq<Target>) returns (e: Env)
    requires IsDisplay(input.action) && env.valid(input.action.patch)
    requires input.action.before.revision == input.action.expected
    requires CheckChange(input.action.patch, input.action.before.targets, current).None?
    ensures e.valid == env.valid && e.size == env.size && e.snapshot(0) == Seen(current)
    ensures env.size(AdjustedRow(e)) <= OUTPUT ==> Adjusted(e, input)
    ensures var (p, before) := (input.action.patch, input.action.before.targets);
            EditedFields(p) != {} ==>
              exists key, v :: key in EditedFields(p) && e.snapshot(2) == Seen(Shown(before, p.target, key, v))
  {
    var adjusted := SomethingElse(input.action.patch, input.action.before.targets, current);
    e := env.(admitted := true, mac := false, delivery := _ => Sent, apply := _ => None,
              snapshot := n => if n == 0 then Seen(current) else Seen(adjusted));
    assert e.snapshot(0) == Seen(current) && e.snapshot(2) == Seen(adjusted);
  }

  /** A display change that is admitted, applied and adjusted, with standard output in order. */
  predicate Adjusted(env: Env, input: Input) {
    && env.admitted && IsDisplay(input.action) && env.valid(input.action.patch)
    && input.action.before.revision == input.action.expected
    && env.snapshot(0).Seen?
    && CheckChange(input.action.patch, input.action.before.targets, env.snapshot(0).targets).None?
    && Adjusts(env, input)
    && env.size(AdjustedRow(env)) <= OUTPUT && env.delivery(0) == Sent
  }

  // ------------------------------------------------------------- the transaction

  class Transaction {
    const env: Env
    const input: Input
    var trace: seq<Event>
    var unsettled: bool
    var output: seq<Row>      // what is hashed
    var stdout: seq<Out>      // what was written
    var written: nat
    var attempts: nat
    ghost var lost: seq<Row>  // rows that were written but never confirmed

    constructor (env: Env, input: Input)
      ensures this.env == env && this.input == input && Unstarted()
    {
      this.env, this.input := env, input;
      trace, unsettled, output, stdout, written, attempts, lost := [], false, [], [], 0, 0, [];
    }

    ghost predicate Unstarted()
      reads this
    {
      trace == [] && !unsettled && output == [] && stdout == [] && lost == [] && written == 0 && attempts == 0
    }

    method Snapshot() returns (o: Observation)
      modifies `trace
      ensures o == env.snapshot(|old(trace)|)
      ensures trace == old(trace) + [if o.Seen? then Saw(o.targets) else Blind]
    {
      o := env.snapshot(|trace|);
      trace := trace + [if o.Seen? then Saw(o.targets) else Blind];
    }

    method Apply() returns (e: Option<Error>)
      modifies `trace
      ensures e == env.apply(|old(trace)|) && trace == old(trace) + [Applying(e.None?)]
    {
      e := env.apply(|trace|);
      trace := trace + [Applying(e.None?)];
    }

    /** Only macOS has to be told to preserve what another writer left. */
    method Preserve() returns (e: Option<Error>)
      modifies `trace
      ensures if env.mac then trace == old(trace) + [Preserving(e.None?)] else trace == old(trace) && e.None?
    {
      if !env.mac {
        return None;
      }
      e := env.preserve(|trace|);
      trace := trace + [Preserving(e.None?)];
    }

    method Finish(keep: bool) returns (e: Option<Error>)
      modifies `trace
      ensures trace == old(trace) + [Finishing(keep, e.None?)]
    {
      e := env.finish(|trace|);
      trace := trace + [Finishing(keep, e.None?)];
    }

    method CanKeep() returns (live: bool)
      modifies `trace
      ensures trace == old(trace) + [Permission(live)]
    {
      live := env.live(|trace|);
      trace := trace + [Permission(live)];
    }

    /** A row counts only once it was written and flushed; a row that does not fit is never written. */
    method Emit(row: Row) returns (e: Option<Error>)
      modifies `output, `stdout, `lost, `written, `attempts
      ensures output == old(output) + if e.None? then [row] else []
      ensures e.None? ==> stdout == old(stdout) + [Line(row)] && lost == old(lost) && written <= OUTPUT
      ensures old(written) + env.size(row) <= OUTPUT && env.delivery(old(attempts)) == Sent ==> e.None?
      ensures e.Some? ==> (lost == old(lost) && (stdout == old(stdout) || stdout == old(stdout) + [Fragment]))
                          || (lost == old(lost) + [row] && stdout == old(stdout) + [Line(row)])
    {
      if written + env.size(row) > OUTPUT {
        return Some(Failure);
      }
      var how := env.delivery(attempts);
      attempts := attempts + 1;
      match how {
        case Dropped => e := Some(Failure);
        case Torn => stdout := stdout + [Fragment]; e := Some(Failure);
        case Unflushed => stdout := stdout + [Line(row)]; lost := lost + [row]; e := Some(Failure);
        case Sent =>
          stdout := stdout + [Line(row)];
          output := output + [row];
          written := written + env.size(row);
          e := None;
      }
    }

    /** Waits for a decision while the window is open and the login may still keep the preview. */
    method Poll(polls: nat) returns (keep: bool, e: Option<Error>, ghost events: seq<Event>)
      modifies `trace
      ensures trace == old(trace) + events && AllQuiet(events)
      ensures e.None? ==> (keep <==> Wanted(input, events))
      ensures e.Some? ==> !keep
    {
      keep, e, events := false, None, [];
      var i := 0;
      while i < polls
        invariant trace == old(trace) + events && AllQuiet(events)
        invariant !keep && e.None? && MarkerRead(Some(Marker(input.request, true))) !in events
            && Permission(false) !in events
      {
        var window := env.window(|trace|);
        if window == Unreadable {
          return false, Some(Failure), events;
        }
        if window == Past {
          return;
        }
        var live := CanKeep();
        events := events + [Permission(live)];
        if !live {
          return;
        }
        var marker := env.marker(|trace|);
        trace := trace + [MarkerRead(marker)];
        events := events + [MarkerRead(marker)];
        if marker.Some? && marker.value.request == input.request {
          keep := marker.value.keep;
          return;
        }
        i := i + 1;
      }
    }

    ghost predicate Sound()
      reads this
    {
      && Careful(input, trace) && ReadBack(trace)
      && (IsDisplay(input.action) && !unsettled ==> Closes(env.mac, StandingOf(input.action, trace)))
    }

    /** Others changed the display in the meantime: keep what they left and report a conflict. */
    method YieldToOthers(actual: seq<Target>) returns (e: Option<Error>, row: Row)
      requires IsDisplay(input.action) && unsettled && Careful(input, trace) && LastSeen(trace, actual)
      requires env.mac || Closes(env.mac, StandingOf(input.action, trace))
      requires ReadBack(trace) && !Settles(input.action, trace)
      modifies `trace, `unsettled
      ensures Sound()
      ensures e.None? ==> !unsettled && row.finished && Honest(input, env.mac, trace, row)
      ensures e.Some? ==> unsettled
      ensures !env.mac ==> e.None? && trace == old(trace) && row == Row(true, Conflicted, Some(actual), false)
    {
      ghost var before := trace;
      e := Preserve();
      if env.mac {
        CarefulMore(input, before, Preserving(e.None?));
        StandingMore(input.action, before, Preserving(e.None?));
        StillLast(before, actual, Preserving(e.None?));
        NothingSettled(input.action, before, Preserving(e.None?));
      }
      row := Row(true, Conflicted, Some(actual), false);
      if e.None? {
        unsettled := false;
      }
    }

    /** Keeps or restores the preview that is still on screen, and says which of it was read back. */
    method Conclude(keep: bool) returns (e: Option<Error>, row: Row)
      requires IsDisplay(input.action) && unsettled && Careful(input, trace)
      requires if keep then MayKeep(input, trace) else !Wanted(input, trace)
      modifies `trace, `unsettled
      ensures Sound()
      ensures e.None? ==> !unsettled && row.finished && Honest(input, env.mac, trace, row)
      ensures e.Some? ==> unsettled
    {
      row := Row(true, Conflicted, None, false);
      ghost var t0 := trace;
      e := Finish(keep);
      CarefulMore(input, t0, Finishing(keep, e.None?));
      if e.Some? {
        return;
      }
      ghost var t1 := trace;
      var o := Snapshot();
      CarefulMore(input, t1, trace[|t1|]);
      if o.Unseen? {
        return Some(o.error), row;
      }
      row := Row(true, Concluded(input.action, keep, o.targets), Some(o.targets), false);
      unsettled := false;
      ConcludedStanding(input.action, t0, keep, o.targets);
      ConcludedHonest(input, env.mac, t0, keep, o.targets);
    }

    /** Waits for a decision about the preview, then yields, keeps or restores. */
    method Settle(shown: seq<Target>, polls: nat) returns (e: Option<Error>, row: Row)
      requires unsettled && JustShown(input.action, trace, shown) && Careful(input, trace) && Undecided(trace)
      modifies `trace, `unsettled
      ensures Sound()
      ensures e.None? ==> !unsettled && row.finished && Honest(input, env.mac, trace, row)
      ensures e.Some? ==> unsettled
    {
      row := Row(false, Preview, Some(shown), true);
      ghost var t0 := trace;
      var keep;
      ghost var quiet;
      keep, e, quiet := Poll(polls);
      CarefulQuiet(input, t0, quiet);
      if e.Some? {
        return;
      }
      var live := CanKeep();
      WantedMore(input, quiet, live);
      keep := keep && live;
      quiet := quiet + [Permission(live)];
      assert trace == t0 + quiet;
      CarefulQuiet(input, t0, quiet);
      e, row := Respond(shown, keep, t0, quiet);
    }

    /** What to do with the preview, once the waiting is over. */
    method Respond(shown: seq<Target>, wanted: bool, ghost t0: seq<Event>, ghost quiet: seq<Event>)
      returns (e: Option<Error>, row: Row)
      requires unsettled && JustShown(input.action, t0, shown) && Undecided(t0) && AllQuiet(quiet)
      requires trace == t0 + quiet && Careful(input, trace) && (wanted <==> Wanted(input, quiet))
      requires quiet != []
      modifies `trace, `unsettled
      ensures Sound()
      ensures e.None? ==> !unsettled && row.finished && Honest(input, env.mac, trace, row)
      ensures e.Some? ==> unsettled
    {
      row := Row(false, Preview, Some(shown), true);
      var o := Snapshot();
      CarefulMore(input, t0 + quiet, trace[|t0 + quiet|]);
      assert Ago(t0 + quiet, 0) == Some(quiet[|quiet| - 1]);
      NothingSettled(input.action, t0 + quiet, trace[|t0 + quiet|]);
      if o.Unseen? {
        return Some(o.error), row;
      }
      if o.targets != shown {
        SawLast(t0 + quiet, o.targets);
        if !env.mac {
          OthersStanding(input.action, t0, shown, quiet, o.targets);
        }
        e, row := YieldToOthers(o.targets);
      } else {
        ghost var t1 := trace;
        var live := CanKeep();
        CarefulMore(input, t1, Permission(live));
        WantedAll(input, t0, quiet, shown, live);
        if wanted && live {
          KeepAllowed(input, t0, shown, quiet);
        }
        e, row := Conclude(wanted && live);
      }
    }

    /** No finished row is out yet. */
    ghost predicate Unfinished()
      reads this
    {
      && |output| <= 1 && |lost| <= 1 && FinishedOn(stdout) == 0
      && (forall k :: 0 <= k < |output| ==> !output[k].finished && output[k].effect == Preview)
      && (forall k :: 0 <= k < |lost| ==> !lost[k].finished)
    }

    /** Standard output carries exactly what is hashed. */
    ghost predicate Clean()
      reads this
    {
      stdout == Lines(output) && lost == []
    }

    /** The row of the preview goes out first; it is not a finished one. */
    method Announce(row: Row) returns (e: Option<Error>)
      requires output == [] && stdout == [] && lost == [] && !row.finished && row.effect == Preview
      modifies `output, `stdout, `lost, `written, `attempts
      ensures Unfinished()
      ensures e.None? ==> Clean()
    {
      e := Emit(row);
      FinishedMore([], Line(row));
      FinishedMore([], Fragment);
      assert e.None? ==> stdout == Lines(output);
    }

    /** Shows the preview, then settles it. */
    method ShowPreview(shown: seq<Target>, polls: nat) returns (e: Option<Error>, row: Row)
      requires unsettled && JustShown(input.action, trace, shown) && Careful(input, trace) && Undecided(trace)
      requires output == [] && stdout == [] && lost == []
      modifies `trace, `unsettled, `output, `stdout, `lost, `written, `attempts
      ensures Sound() && Unfinished()
      ensures e.None? ==> !unsettled && row.finished && Honest(input, env.mac, trace, row) && Clean()
      ensures e.Some? ==> unsettled
    {
      row := Row(false, Preview, Some(shown), true);
      if !env.clock {
        return Some(Failure), row;
      }
      e := Announce(row);
      if e.None? {
        e, row := Settle(shown, polls);
      }
    }

    /** Judges an edit that was applied by the values read back. */
    method Judge(applied: seq<Target>, polls: nat, ghost t1: seq<Event>) returns (e: Option<Error>, row: Row)
      requires input.action.Change? && unsettled == IsDisplay(input.action)
      requires trace == t1 + [Saw(applied)] && Ago(t1, 0) == Some(Applying(true))
      requires Careful(input, trace) && Undecided(trace) && StandingOf(input.action, t1) == Begun(None)
      requires output == [] && stdout == [] && lost == []
      modifies `trace, `unsettled, `output, `stdout, `lost, `written, `attempts
      ensures Sound() && Unfinished()
      ensures unsettled ==> e.Some? && IsDisplay(input.action)
      ensures e.None? ==> row.finished && Honest(input, env.mac, trace, row) && Clean()
      ensures IsDisplay(input.action) && !env.mac && !Shows(input.action.patch, applied) ==>
        && e.None? && row == Row(true, Conflicted, Some(applied), false)
        && trace == old(trace) && unchanged(`written, `attempts)
    {
      var patch := input.action.patch;
      SawLast(t1, applied);
      NothingSettled(input.action, t1, Saw(applied));
      StandingMore(input.action, t1, Saw(applied));
      if !Shows(patch, applied) {
        if patch.DisplayPatch? {
          e, row := YieldToOthers(applied);
        } else {
          e, row := None, Row(true, Conflicted, Some(applied), false);
        }
      } else if patch.DisplayPatch? {
        e, row := ShowPreview(applied, polls);
      } else {
        e, row := None, Row(true, Applied, Some(applied), false);
      }
    }

    /** Applies a checked edit and reads it back. */
    method Attempt(polls: nat) returns (e: Option<Error>, row: Row)
      requires input.action.Change? && !unsettled && Untried(trace) && output == [] && stdout == [] && lost == []
      modifies `trace, `unsettled, `output, `stdout, `lost, `written, `attempts
      ensures Sound() && Unfinished()
      ensures unsettled ==> e.Some? && IsDisplay(input.action)
      ensures e.None? ==> row.finished && Honest(input, env.mac, trace, row) && Clean()
      ensures |old(trace)| == 1 && Adjusts(env, input) ==>
        e.None? && row == AdjustedRow(env) && AdjustedTrace(input.action, trace) && unchanged(`written, `attempts)
    {
      row := Row(true, Conflicted, None, false);
      ghost var t0 := trace;
      unsettled := input.action.patch.DisplayPatch?;
      e := Apply();
      CarefulMore(input, t0, Applying(e.None?));
      StandingMore(input.action, t0, Applying(e.None?));
      if e.Some? {
        return;
      }
      ghost var t1 := trace;
      var o := Snapshot();
      CarefulMore(input, t1, trace[|t1|]);
      if o.Unseen? {
        StandingMore(input.action, t1, Blind);
        return Some(o.error), row;
      }
      e, row := Judge(o.targets, polls, t1);
    }

    /** The trace before anything was applied: only reads. */
    ghost predicate Untried(trace: seq<Event>) {
      forall k :: 0 <= k < |trace| ==> trace[k].Saw? || trace[k].Blind? || trace[k].Opening?
    }

    /** Refuses an edit whose ground has changed, else attempts it. */
    method Edit(polls: nat) returns (e: Option<Error>, row: Row)
      requires Unstarted() && input.action.Change?
      modifies `trace, `unsettled, `output, `stdout, `lost, `written, `attempts
      ensures Sound() && Unfinished()
      ensures unsettled ==> e.Some? && IsDisplay(input.action)
      ensures e.None? ==> row.finished && Honest(input, env.mac, trace, row) && Clean()
      ensures Adjusted(env, input) ==>
        e.None? && row == AdjustedRow(env) && AdjustedTrace(input.action, trace) && written == attempts == 0
    {
      var before := input.action.before;
      row := Row(true, Conflicted, None, false);
      if !env.valid(input.action.patch) || before.revision != input.action.expected {
        return Some(Conflict), row;
      }
      var o := Snapshot();
      StandingMore(input.action, [], trace[0]);
      assert trace == [] + [trace[0]];
      if o.Unseen? {
        return Some(o.error), row;
      }
      e := CheckChange(input.action.patch, before.targets, o.targets);
      if e.None? {
        e, row := Attempt(polls);
      }
    }

    method Look() returns (e: Option<Error>, row: Row)
      requires Unstarted() && input.action.Read?
      modifies `trace
      ensures Sound() && Unfinished() && Clean() && !unsettled
      ensures e.None? ==> row.finished && Honest(input, env.mac, trace, row)
    {
      row := Row(true, Observed, None, false);
      var o := Snapshot();
      if o.Unseen? {
        return Some(o.error), row;
      }
      SawLast([], o.targets);
      assert trace == [] + [Saw(o.targets)];
      e, row := None, Row(true, Observed, Some(o.targets), false);
    }

    /** The requested action, up to its last row. */
    method Perform(polls: nat) returns (e: Option<Error>, row: Row)
      requires Unstarted()
      modifies `trace, `unsettled, `output, `stdout, `lost, `written, `attempts
      ensures Sound() && Unfinished()
      ensures unsettled ==> e.Some? && IsDisplay(input.action)
      ensures e.None? ==> row.finished && Honest(input, env.mac, trace, row) && Clean()
      ensures Adjusted(env, input) ==>
        e.None? && row == AdjustedRow(env) && AdjustedTrace(input.action, trace) && written == attempts == 0
    {
      if input.action.Read? {
        e, row := Look();
      } else if input.action.Open? {
        e := env.open(0);
        trace := trace + [Opening(e.None?)];
        row := Row(true, OpenRequested, None, false);
      } else {
        e, row := Edit(polls);
      }
    }

    /** The last row: hashed output gets one finished row, or none and an error. */
    method EmitLast(row: Row) returns (e: Option<Error>)
      requires Unfinished() && Clean() && row.finished
      modifies `output, `stdout, `lost, `written, `attempts
      ensures e.Some? ==> Interrupted()
      ensures e.None? ==> OneFinished(output) && output[|output| - 1] == row && Clean()
      ensures old(written) + env.size(row) <= OUTPUT && env.delivery(old(attempts)) == Sent ==> e.None?
    {
      ghost var out := stdout;
      assert FinishedOn(out) == 0;
      e := Emit(row);
      FinishedMore(out, Line(row));
      FinishedMore(out, Fragment);
      assert e.None? ==> stdout == Lines(output);
    }

    /** The requested action and its last row. */
    method ExecuteInner(polls: nat) returns (e: Option<Error>)
      requires Unstarted()
      modifies `trace, `unsettled, `output, `stdout, `lost, `written, `attempts
      ensures Sound()
      ensures unsettled ==> e.Some? && IsDisplay(input.action)
      ensures e.Some? ==> Interrupted()
      ensures e.None? ==> OneFinished(output) && Honest(input, env.mac, trace, output[|output| - 1]) && Clean()
      ensures Adjusted(env, input) ==> e.None? && AdjustedTrace(input.action, trace)
    {
      var row;
      e, row := Perform(polls);
      if e.None? {
        e := EmitLast(row);
      }
    }

    /** An error before the hashed output got a finished row; `lost` tells whether standard output has one. */
    ghost predicate Interrupted()
      reads this
    {
      && |output| <= 1 && |lost| <= 1
      && (forall k :: 0 <= k < |output| ==> !output[k].finished && output[k].effect == Preview)
      && FinishedOn(stdout) == if |lost| == 1 && lost[0].finished then 1 else 0
    }

    /** One look that may close an unsettled display change: the original values are back. */
    method LooksBack() returns (back: bool, o: Observation)
      requires IsDisplay(input.action) && Careful(input, trace)
      modifies `trace
      ensures Careful(input, trace) && ReadBack(trace)
      ensures back <==> o == Seen(input.action.before.targets)
      ensures back ==> Closes(env.mac, StandingOf(input.action, trace))
    {
      ghost var t0 := trace;
      o := Snapshot();
      CarefulMore(input, t0, trace[|t0|]);
      StandingMore(input.action, t0, trace[|t0|]);
      back := o == Seen(input.action.before.targets);
    }

    /** After a failure: settled if the original values are there, else a preview that is still known is restored. */
    method Recover()
      requires IsDisplay(input.action) && unsettled && Careful(input, trace)
      modifies `trace, `unsettled
      ensures Sound()
    {
      var back, o := LooksBack();
      if back {
        unsettled := false;
        return;
      }
      if o.Seen? && Satisfied(input.action.patch, o.targets) {
        ghost var t0 := trace;
        var e := Finish(false);
        CarefulMore(input, t0, Finishing(false, e.None?));
        if e.None? {
          back, o := LooksBack();
          if back {
            unsettled := false;
          }
        }
      }
    }

    method Execute(polls: nat) returns (e: Option<Error>)
      requires Unstarted()
      modifies `trace, `unsettled, `output, `stdout, `lost, `written, `attempts
      ensures Sound()
      ensures unsettled ==> e.Some? && IsDisplay(input.action)
      ensures e.Some? ==> Interrupted()
      ensures e.None? ==> OneFinished(output) && Honest(input, env.mac, trace, output[|output| - 1]) && Clean()
      ensures Adjusted(env, input) ==> e.None? && AdjustedTrace(input.action, trace)
    {
      e := ExecuteInner(polls);
      if e.Some? && unsettled {
        Recover();
      }
    }

    /** The row of a failed task: what is there now, and no more claimed than that. */
    method ErrorRow(error: Error) returns (row: Row)
      requires Sound() && (unsettled ==> IsDisplay(input.action))
      modifies `trace
      ensures Sound() && row.finished && Honest(input, env.mac, trace, row)
      ensures unsettled ==> row.effect == Unknown || row.effect == Conflicted
    {
      ghost var t0 := trace;
      var o := Snapshot();
      CarefulMore(input, t0, trace[|t0|]);
      NothingSettled(input.action, t0, trace[|t0|]);
      if input.action.Change? {
        StandingMore(input.action, t0, trace[|t0|]);
        LeftExactly(input.action, trace);
      }
      var same := !unsettled && IsDisplay(input.action) && o.Seen?
                       && DisplayStateEqual(o.targets, input.action.before.targets);
      var effect := if error == Conflict then Conflicted
                    else if input.action.Change? && !same then Unknown else Failed;
      if o.Seen? {
        SawLast(t0, o.targets);
      }
      row := Row(true, effect, if o.Seen? then Some(o.targets) else None, false);
    }

    /** A closed display change has left its preview exactly when Windows showed other values after it. */
    lemma ClosedExactly()
      requires Sound() && IsDisplay(input.action) && !unsettled
      ensures PreviewLeft(input.action, trace) <==> !env.mac && Differs(input.action, trace)
    {
      LeftExactly(input.action, trace);
    }

    /** One finished row is hashed; standard output may carry it twice, or lack it as a line of its own. */
    ghost predicate Delivered()
      reads this
    {
      && OneFinished(output) && |lost| <= 1 && stdout != []
      && FinishedOn(stdout) == (if |lost| == 1 && lost[0].finished then 1 else 0)
                               + (if EndsTorn(stdout[..|stdout| - 1]) then 0 else 1)
    }

    lemma CleanIsDelivered()
      requires OneFinished(output) && Clean()
      ensures Delivered()
    {
      OneLine(output);
    }

    /** The error row goes out without being counted against the limit, and the run reports whether it is settled. */
    method Close(row: Row) returns (r: Result)
      requires Interrupted() && row.finished
      modifies `output, `stdout
      ensures r == Completed(!unsettled) && Delivered() && output[|output| - 1] == row
    {
      FinishedMore(stdout, Line(row));
      ghost var before := stdout;
      stdout := stdout + [Line(row)];
      assert stdout[..|stdout| - 1] == before;
      output := output + [row];
      r := Completed(!unsettled);
    }

    /** After a failure: the error row, if it can be written. */
    method Fail(error: Error) returns (r: Result)
      requires Sound() && Interrupted() && (unsettled ==> IsDisplay(input.action))
      modifies `trace, `output, `stdout
      ensures Sound()
      ensures r == Aborted || r == Completed(!unsettled)
      ensures r.Completed? ==> Delivered() && Honest(input, env.mac, trace, output[|output| - 1])
      ensures r.Completed? && unsettled ==> output[|output| - 1].effect in {Unknown, Conflicted}
    {
      var row := ErrorRow(error);
      if env.last(0) != Sent || env.last(1) != Sent {
        return Aborted;
      }
      r := Close(row);
    }

    /**
     The whole run. Whatever the environment does: a completed run hashes exactly one finished
     row and that row is honest. A run that calls itself closed has left its own preview behind
     exactly when it ran on Windows and read other values than the edit that was asked for and
     then shown, and an adjusted edit is an input that gets there. Standard output has a second
     finished row exactly when a finished row was written but its flush failed, and lacks the
     last one exactly when an earlier row was torn.
     */
    method Run(polls: nat) returns (r: Result)
      requires Unstarted()
      modifies `trace, `unsettled, `output, `stdout, `lost, `written, `attempts
      ensures r.Refused? <==> !env.admitted
      ensures r.Refused? ==> Unstarted()
      ensures Sound()
      ensures r.Completed? ==> Delivered() && Honest(input, env.mac, trace, output[|output| - 1])
      ensures r.Completed? ==> r.closed == !unsettled
      ensures r.Completed? && r.closed && IsDisplay(input.action) ==>
        (PreviewLeft(input.action, trace) <==> !env.mac && Differs(input.action, trace))
      ensures Adjusted(env, input) ==> r == Completed(true) && PreviewLeft(input.action, trace)
      ensures r.Completed? && !r.closed ==>
          IsDisplay(input.action)
          && output[|output| - 1].effect in {Unknown, Conflicted}
    {
      if !env.admitted {
        return Refused;
      }
      var e := Execute(polls);
      if e.None? {
        CleanIsDelivered();
        if Adjusted(env, input) {
          AdjustedLeaves(input.action, trace);
        }
        r := Completed(true);
      } else {
        r := Fail(e.value);
      }
      if !unsettled && IsDisplay(input.action) {
        ClosedExactly();
      }
    }
  }
}
