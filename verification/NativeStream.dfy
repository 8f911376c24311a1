/**
 The framed half of the native control channel: characters arrive in chunks of any size, frames
 are newline-terminated lines of a bounded number of bytes, and the first failure closes it.
 Requests that were read finish between the chunks, whenever they like.
 */
module NativeStream {
  import Control = NativeControl

  const LIMIT: nat := 524288

  /** What handling a line does: carry on, throw, or close the channel and return normally. */
  datatype Verdict = Accept | Throw | Shut

  /** How a line is handled may depend on every line read before it. */
  type Handler = (seq<string>, string) -> Verdict

  /** What a line holds: whether it asks for something, and what handling it does if it is not refused. */
  datatype Content = Content(asks: bool, verdict: Verdict)

  type Contents = (seq<string>, string) -> Content

  datatype Reader = Reader(buffer: string, read: seq<string>, closed: bool)

  const Start := Reader("", [], false)

  /** The bytes of a character in UTF-8. */
  function Width(c: char): nat {
    if c as int < 0x80 then 1 else if c as int < 0x800 then 2 else if c as int < 0x1_0000 then 3 else 4
  }

  function Bytes(s: string): nat {
    if s == "" then 0 else Width(s[0]) + Bytes(s[1..])
  }

  lemma {:induction false} BytesAdd(a: string, b: string)
    ensures Bytes(a + b) == Bytes(a) + Bytes(b)
  {
    if a == "" {
      assert a + b == b;
    } else {
      BytesAdd(a[1..], b);
      assert (a + b)[1..] == a[1..] + b;
    }
  }

  predicate NoBreak(s: string) {
    forall i :: 0 <= i < |s| ==> s[i] != '\n'
  }

  /** The first newline, or the length when there is none. */
  function Break(s: string): (n: nat)
    ensures n <= |s| && NoBreak(s[..n]) && (n < |s| ==> s[n] == '\n')
  {
    if s == "" || s[0] == '\n' then 0
    else
      var n := Break(s[1..]);
      assert s[..n + 1] == [s[0]] + s[1..][..n];
      n + 1
  }

  lemma BreakUnique(s: string, n: nat)
    requires n < |s| && NoBreak(s[..n]) && s[n] == '\n'
    ensures Break(s) == n
  {
    var m := Break(s);
    assert forall i :: 0 <= i < n ==> s[i] == s[..n][i];
    assert forall i :: 0 <= i < m ==> s[i] == s[..m][i];
  }

  predicate HasLine(r: Reader) {
    Break(r.buffer) < |r.buffer|
  }

  /** One complete line is cut off the buffer and handled; an oversized one is never handled. */
  function Take(r: Reader, handle: Handler): Reader
    requires HasLine(r)
  {
    var n := Break(r.buffer);
    var line, rest := r.buffer[..n], r.buffer[n + 1..];
    if Bytes(line) > LIMIT then Reader(rest, r.read, true)
    else Reader(rest, r.read + [line], r.closed || handle(r.read, line) != Accept)
  }

  /** Whether handling the line threw, which ends the loop over the buffer. */
  predicate Throws(r: Reader, handle: Handler)
    requires HasLine(r)
  {
    var line := r.buffer[..Break(r.buffer)];
    Bytes(line) > LIMIT || handle(r.read, line) == Throw
  }

  /** Reads every complete line of the buffer, then checks what is left over. */
  function Drain(r: Reader, handle: Handler): Reader
    decreases |r.buffer|
  {
    if !HasLine(r) then
      if Bytes(r.buffer) > LIMIT then r.(closed := true) else r
    else if Throws(r, handle) then Take(r, handle)
    else Drain(Take(r, handle), handle)
  }

  /** A destroyed socket delivers nothing more. */
  function Feed(r: Reader, chunk: string, handle: Handler): Reader {
    if r.closed then r else Drain(r.(buffer := r.buffer + chunk), handle)
  }

  function Joined(chunks: seq<string>): string {
    if chunks == [] then "" else chunks[0] + Joined(chunks[1..])
  }

  /** The same lines were read, the same side closed, and an open channel keeps the same rest. */
  predicate Same(a: Reader, b: Reader) {
    a.read == b.read && a.closed == b.closed && (!a.closed ==> a.buffer == b.buffer)
  }

  predicate Shuts(handle: Handler, read: seq<string>, i: nat)
    requires i < |read|
  {
    handle(read[..i], read[i]) == Shut
  }

  /** No line before the last one read closes the channel from inside its handler. */
  predicate OnlyLastShuts(handle: Handler, read: seq<string>, from: nat) {
    forall i :: from <= i < |read| - 1 ==> !Shuts(handle, read, i)
  }

  /** An open channel between two chunks holds an unfinished line within the limit. */
  predicate Resting(r: Reader) {
    !r.closed && NoBreak(r.buffer) && Bytes(r.buffer) <= LIMIT
  }

  // --------------------------------------------------------- how lines add up

  lemma {:induction false} DrainGrows(r: Reader, handle: Handler)
    ensures r.read <= Drain(r, handle).read
    ensures r.closed ==> Drain(r, handle).closed
    decreases |r.buffer|
  {
    if HasLine(r) && !Throws(r, handle) {
      DrainGrows(Take(r, handle), handle);
    }
  }

  lemma {:induction false} DrainRests(r: Reader, handle: Handler)
    requires !Drain(r, handle).closed
    ensures Resting(Drain(r, handle))
    decreases |r.buffer|
  {
    if HasLine(r) {
      DrainRests(Take(r, handle), handle);
    } else {
      assert r.buffer[..Break(r.buffer)] == r.buffer;
    }
  }

  function More(r: Reader, b: string): Reader {
    r.(buffer := r.buffer + b)
  }

  /** A complete line is handled alike whatever follows it. */
  lemma TakeWithin(r: Reader, b: string, handle: Handler)
    requires HasLine(r)
    ensures HasLine(More(r, b)) && Take(More(r, b), handle) == More(Take(r, handle), b)
    ensures Throws(More(r, b), handle) == Throws(r, handle)
  {
    var n := Break(r.buffer);
    var s := r.buffer + b;
    assert s[..n] == r.buffer[..n];
    BreakUnique(s, n);
    assert s[n + 1..] == r.buffer[n + 1..] + b;
  }

  /** An oversized rest closes the channel now or when its line is complete, with nothing read in between. */
  lemma OversizedRest(r: Reader, b: string, handle: Handler)
    requires !HasLine(r) && Bytes(r.buffer) > LIMIT
    ensures var d := Drain(More(r, b), handle); d.closed && d.read == r.read
  {
    var s := r.buffer + b;
    var n := Break(s);
    assert forall i :: 0 <= i < |r.buffer| ==> s[i] == r.buffer[..Break(r.buffer)][i];
    assert n >= |r.buffer|;
    assert s[..n] == r.buffer + b[..n - |r.buffer|];
    BytesAdd(r.buffer, b[..n - |r.buffer|]);
    assert s[..|s|] == s;
  }

  /** Draining the first part and then the rest is draining both together, as long as it stays open. */
  lemma {:induction false} DrainOpen(r: Reader, b: string, handle: Handler)
    requires !Drain(r, handle).closed
    ensures Drain(More(r, b), handle) == Drain(More(Drain(r, handle), b), handle)
    decreases |r.buffer|
  {
    if HasLine(r) {
      TakeWithin(r, b, handle);
      DrainOpen(Take(r, handle), b, handle);
    }
  }

  /** Once closed, only a handler that shut the channel itself lets further lines through. */
  lemma {:induction false} DrainClosed(r: Reader, b: string, handle: Handler)
    requires Drain(r, handle).closed && !r.closed
    requires OnlyLastShuts(handle, Drain(More(r, b), handle).read, |r.read|)
    ensures Drain(More(r, b), handle).closed
    ensures Drain(More(r, b), handle).read == Drain(r, handle).read
    decreases |r.buffer|
  {
    if !HasLine(r) {
      OversizedRest(r, b, handle);
    } else {
      TakeWithin(r, b, handle);
      var next := Take(r, handle);
      if !Throws(r, handle) {
        if next.closed {
          assert next.read[..|r.read|] == r.read;
          assert Shuts(handle, next.read, |r.read|);
          DrainGrows(next, handle);
          DrainGrowsWith(next, b, handle);
          ShutIsLast(next, Drain(More(next, b), handle).read, handle);
        } else {
          DrainClosed(next, b, handle);
        }
      }
    }
  }

  lemma ShutIsLast(r: Reader, whole: seq<string>, handle: Handler)
    requires r.read != [] && r.read <= whole && Shuts(handle, r.read, |r.read| - 1)
    requires OnlyLastShuts(handle, whole, |r.read| - 1)
    ensures whole == r.read
  {
    var i := |r.read| - 1;
    assert whole[..i] == r.read[..i];
    if |whole| > |r.read| {
      assert Shuts(handle, whole, i);
    }
  }

  /** More input never takes back a line that was read, nor reopens the channel. */
  lemma {:induction false} DrainGrowsWith(r: Reader, b: string, handle: Handler)
    ensures Drain(r, handle).read <= Drain(More(r, b), handle).read
    ensures r.closed ==> Drain(More(r, b), handle).closed
    decreases |r.buffer|
  {
    if !HasLine(r) {
      DrainGrows(More(r, b), handle);
    } else {
      TakeWithin(r, b, handle);
      if !Throws(r, handle) {
        DrainGrowsWith(Take(r, handle), b, handle);
      }
    }
  }

  // ------------------------------------------------------------ where to cut

  /** The buffer up to and including `q` characters after its first line. */
  function Cut(r: Reader, q: nat): Reader
    requires HasLine(r) && Break(r.buffer) + 1 + q <= |r.buffer|
  {
    r.(buffer := r.buffer[..Break(r.buffer) + 1 + q])
  }

  lemma CutTakes(r: Reader, q: nat, handle: Handler)
    requires HasLine(r) && Break(r.buffer) + 1 + q <= |r.buffer|
    ensures HasLine(Cut(r, q)) && Throws(Cut(r, q), handle) == Throws(r, handle)
    ensures Take(Cut(r, q), handle) == Take(r, handle).(buffer := Take(r, handle).buffer[..q])
  {
    var n := Break(r.buffer);
    var s := Cut(r, q).buffer;
    assert s[..n] == r.buffer[..n];
    BreakUnique(s, n);
    assert s[n + 1..] == r.buffer[n + 1..][..q];
  }

  /** A cut inside what follows the first line carries over to the whole buffer. */
  lemma CutDrains(r: Reader, q: nat, handle: Handler)
    requires HasLine(r) && !Throws(r, handle) && Break(r.buffer) + 1 + q <= |r.buffer|
    ensures var next := Take(r, handle);
            Drain(Cut(r, q), handle) == Drain(next.(buffer := next.buffer[..q]), handle)
  {
    CutTakes(r, q, handle);
  }

  lemma ThrowEnds(r: Reader, handle: Handler, i: nat)
    requires |r.read| <= i < |Drain(r, handle).read| - 1
    ensures HasLine(r) && !Throws(r, handle) && Drain(r, handle) == Drain(Take(r, handle), handle)
  {
  }

  /** The channel is closed, with fewer lines read than in the end, when only `p` characters came. */
  predicate ClosedBy(r: Reader, handle: Handler, p: nat, whole: nat) {
    p <= |r.buffer|
    && var d := Drain(r.(buffer := r.buffer[..p]), handle);
    d.closed && |d.read| < whole
  }

  lemma {:induction false} CutHere(r: Reader, handle: Handler, whole: nat) returns (p: nat)
    requires HasLine(r) && !Throws(r, handle) && Take(r, handle).closed && |r.read| + 1 < whole
    ensures ClosedBy(r, handle, p, whole)
  {
    var next := Take(r, handle);
    CutDrains(r, 0, handle);
    DrainsNothing(next.(buffer := next.buffer[..0]), handle);
    p := Break(r.buffer) + 1;
  }

  lemma {:induction false} CutLater(r: Reader, handle: Handler, q: nat, whole: nat) returns (p: nat)
    requires HasLine(r) && !Throws(r, handle) && ClosedBy(Take(r, handle), handle, q, whole)
    ensures ClosedBy(r, handle, p, whole)
  {
    CutDrains(r, q, handle);
    p := Break(r.buffer) + 1 + q;
  }

  /** Where to cut the stream so that the channel is already closed when the second part arrives. */
  lemma {:induction false} CutAfterShut(r: Reader, handle: Handler, i: nat, whole: seq<string>) returns (p: nat)
    requires !r.closed && whole == Drain(r, handle).read && |r.read| <= i < |whole| - 1 && Shuts(handle, whole, i)
    ensures ClosedBy(r, handle, p, |whole|)
    decreases |r.buffer|
  {
    ThrowEnds(r, handle, i);
    if Take(r, handle).closed {
      p := CutHere(r, handle, |whole|);
    } else {
      ShutIsLater(r, handle, i);
      p := CutAfterShut(Take(r, handle), handle, i, whole);
      p := CutLater(r, handle, p, |whole|);
    }
  }

  lemma DrainsNothing(r: Reader, handle: Handler)
    requires r.buffer == ""
    ensures Drain(r, handle) == r
  {
  }

  lemma ShutIsLater(r: Reader, handle: Handler, i: nat)
    requires HasLine(r) && !Take(r, handle).closed
    requires |r.read| <= i < |Drain(r, handle).read| && Shuts(handle, Drain(r, handle).read, i)
    ensures i > |r.read|
  {
    var next := Take(r, handle);
    DrainGrows(next, handle);
    var whole := Drain(r, handle).read;
    assert whole[|r.read|] == next.read[|r.read|];
    assert whole[..|r.read|] == next.read[..|r.read|] == r.read;
  }

  // ------------------------------------------------- requests that finish in between

  /** `inFlight` counts the requests that did not finish yet, `asked` those that were ever handed on. */
  datatype Channel = Channel(reader: Reader, inFlight: nat, asked: nat)

  const Idle := Channel(Start, 0, 0)

  /** How many of the lines from the given one on are requests. */
  function Asks(f: Contents, read: seq<string>, from: nat): nat {
    if |read| <= from then 0
    else
      var n := |read| - 1;
      Asks(f, read[..n], from) + if f(read[..n], read[n]).asks then 1 else 0
  }

  function Plain(f: Contents): Handler {
    (read, line) => f(read, line).verdict
  }

  /** Nothing finishes while a chunk is handled, so a request is refused once the limit is in flight. */
  function Within(f: Contents, from: nat, inFlight: nat): Handler {
    (read, line) =>
      if f(read, line).asks && inFlight + Asks(f, read, from) >= Control.CALLS then Throw else f(read, line).verdict
  }

  function Min(a: nat, b: nat): nat {
    if a < b then a else b
  }

  /** One chunk arrives: all its lines are handled before anything finishes. */
  function Arrive(c: Channel, chunk: string, f: Contents): Channel
    requires c.inFlight <= Control.CALLS
  {
    var from := |c.reader.read|;
    var r := Feed(c.reader, chunk, Within(f, from, c.inFlight));
    var taken := Min(Asks(f, r.read, from), Control.CALLS - c.inFlight);
    Channel(r, c.inFlight + taken, c.asked + taken)
  }

  function Finished(c: Channel, count: nat): Channel {
    c.(inFlight := c.inFlight - Min(count, c.inFlight))
  }

  /** Chunks arrive one by one; after each, as many requests finish as `done` says. */
  function Timeline(c: Channel, chunks: seq<string>, done: seq<nat>, f: Contents): (r: Channel)
    requires |done| == |chunks| && c.inFlight <= Control.CALLS
    decreases |chunks|
  {
    if chunks == [] then c
    else Timeline(Finished(Arrive(c, chunks[0], f), done[0]), chunks[1..], done[1..], f)
  }

  /** The same lines were read and the same requests handed on, and the channel ended alike. */
  predicate Alike(a: Channel, b: Channel) {
    Same(a.reader, b.reader) && a.asked == b.asked
  }

  lemma AsksMore(f: Contents, read: seq<string>, line: string, from: nat)
    requires from <= |read|
    ensures Asks(f, read + [line], from) == Asks(f, read, from) + if f(read, line).asks then 1 else 0
  {
    assert (read + [line])[..|read|] == read;
  }

  lemma {:induction false} AsksSplit(f: Contents, front: seq<string>, all: seq<string>, from: nat)
    requires front <= all && from <= |front|
    ensures Asks(f, all, from) == Asks(f, front, from) + Asks(f, all, |front|)
  {
    if |front| < |all| {
      AsksSplit(f, front, all[..|all| - 1], from);
    } else {
      assert front == all;
    }
  }

  /** As long as the limit is not exceeded, it makes no difference. */
  lemma {:induction false} WithinLimit(r: Reader, f: Contents, from: nat, inFlight: nat)
    requires from <= |r.read|
    requires inFlight + Asks(f, Drain(r, Plain(f)).read, from) <= Control.CALLS
             || inFlight + Asks(f, Drain(r, Within(f, from, inFlight)).read, from) <= Control.CALLS
    ensures Drain(r, Within(f, from, inFlight)) == Drain(r, Plain(f))
    decreases |r.buffer|
  {
    var (limited, plain) := (Within(f, from, inFlight), Plain(f));
    if HasLine(r) {
      var line := r.buffer[..Break(r.buffer)];
      if Bytes(line) <= LIMIT {
        var next := r.read + [line];
        AsksMore(f, r.read, line, from);
        DrainGrows(Take(r, plain), plain);
        DrainGrows(Take(r, limited), limited);
        assert next <= Drain(r, plain).read && next <= Drain(r, limited).read;
        AsksSplit(f, next, Drain(r, plain).read, from);
        AsksSplit(f, next, Drain(r, limited).read, from);
        assert limited(r.read, line) == plain(r.read, line);
        if !Throws(r, plain) {
          WithinLimit(Take(r, plain), f, from, inFlight);
        }
      }
    }
  }

  function Requests(n: nat): seq<Control.Action> {
    seq(n, _ => Control.Request(false))
  }

  /** What a chunk with `n` requests takes is what the control machine takes of them, one after the other. */
  lemma {:induction false} BurstRuns(c: Control.Control, n: nat)
    requires c.inFlight <= Control.CALLS && (c.ended ==> c.inFlight == Control.CALLS)
    ensures var d := Control.Run(c, Requests(n));
            && d.inFlight == c.inFlight + Min(n, Control.CALLS - c.inFlight)
            && (d.ended <==> c.ended || c.inFlight + n > Control.CALLS)
    decreases n
  {
    if n > 0 {
      assert Requests(n)[1..] == Requests(n - 1);
      BurstRuns(Control.Step(c, Control.Request(false)), n - 1);
    }
  }

  /** A closed channel only lets requests finish. */
  lemma {:induction false} ClosedWaits(c: Channel, chunks: seq<string>, done: seq<nat>, f: Contents)
    requires |done| == |chunks| && c.inFlight <= Control.CALLS && c.reader.closed
    ensures Alike(Timeline(c, chunks, done, f), c)
    decreases |chunks|
  {
    if chunks != [] {
      ClosedWaits(Finished(Arrive(c, chunks[0], f), done[0]), chunks[1..], done[1..], f);
    }
  }

  /** Chunks and finishing requests together do what the whole rest of the stream does at once. */
  lemma {:induction false} TimelineAgrees(c: Channel, chunks: seq<string>, done: seq<nat>, f: Contents)
    requires |done| == |chunks| && Resting(c.reader)
    requires var whole := Feed(c.reader, Joined(chunks), Plain(f)).read;
             c.inFlight + Asks(f, whole, |c.reader.read|) <= Control.CALLS
             && OnlyLastShuts(Plain(f), whole, |c.reader.read|)
    ensures var r := Feed(c.reader, Joined(chunks), Plain(f));
            Alike(Timeline(c, chunks, done, f), Channel(r, 0, c.asked + Asks(f, r.read, |c.reader.read|)))
    decreases |chunks|
  {
    var (r, handle) := (c.reader, Plain(f));
    if chunks == [] {
      assert r.buffer + "" == r.buffer;
      assert r.buffer[..Break(r.buffer)] == r.buffer;
    } else {
      var rest := Joined(chunks[1..]);
      var first := r.(buffer := r.buffer + chunks[0]);
      var d := Drain(first, handle);
      var whole := Feed(r, Joined(chunks), handle);
      assert r.buffer + Joined(chunks) == first.buffer + rest;
      DrainGrows(first, handle);
      DrainGrowsWith(first, rest, handle);
      AsksSplit(f, d.read, whole.read, |r.read|);
      WithinLimit(first, f, |r.read|, c.inFlight);
      var next := Finished(Arrive(c, chunks[0], f), done[0]);
      assert next.reader == d && next.asked == c.asked + Asks(f, d.read, |r.read|);
      if d.closed {
        DrainClosed(first, rest, handle);
        ClosedWaits(next, chunks[1..], done[1..], f);
      } else {
        DrainOpen(first, rest, handle);
        DrainRests(first, handle);
        TimelineAgrees(next, chunks[1..], done[1..], f);
      }
    }
  }

  // ------------------------------------------------------ what tells two cuts apart

  ghost predicate ChunkingIsInvisible(stream: string, f: Contents) {
    forall chunks: seq<string>, done: seq<nat> :: Joined(chunks) == stream && |done| == |chunks| ==>
                                                    Alike(Timeline(Idle, chunks, done, f), Arrive(Idle, stream, f))
  }

  /** One cut and one timing tell it. */
  lemma Tells(stream: string, p: nat, count: nat, f: Contents)
    requires p <= |stream|
    requires !Alike(Arrive(Finished(Arrive(Idle, stream[..p], f), count), stream[p..], f), Arrive(Idle, stream, f))
    ensures !ChunkingIsInvisible(stream, f)
  {
    TwoChunks(stream, p, count, f);
    JoinedPair(stream, p);
    var (chunks, done) := ([stream[..p], stream[p..]], [count, 0]);
    assert Joined(chunks) == stream && |done| == |chunks|;
  }

  /** A line that is not the last one read did not throw. */
  lemma {:induction false} ThrowIsLast(r: Reader, handle: Handler, i: nat)
    requires |r.read| <= i < |Drain(r, handle).read| - 1
    ensures var read := Drain(r, handle).read; handle(read[..i], read[i]) != Throw
    decreases |r.buffer|
  {
    ThrowEnds(r, handle, i);
    var next := Take(r, handle);
    DrainGrows(next, handle);
    if i == |r.read| {
      var read := Drain(r, handle).read;
      assert read[..i] == next.read[..i] == r.read && read[i] == next.read[i];
    } else {
      ThrowIsLast(next, handle, i);
    }
  }

  lemma JoinedPair(stream: string, p: nat)
    requires p <= |stream|
    ensures Joined([stream[..p], stream[p..]]) == stream
  {
    assert Joined([stream[p..]]) == stream[p..] + "";
  }

  /** Two chunks, with requests finishing between them. */
  lemma {:induction false} TwoChunks(stream: string, p: nat, count: nat, f: Contents)
    requires p <= |stream|
    ensures Timeline(Idle, [stream[..p], stream[p..]], [count, 0], f)
         == Arrive(Finished(Arrive(Idle, stream[..p], f), count), stream[p..], f)
  {
    var (chunks, done) := ([stream[..p], stream[p..]], [count, 0]);
    assert chunks[1..] == [stream[p..]] && done[1..] == [0];
    OneChunk(Finished(Arrive(Idle, stream[..p], f), count), stream[p..], f);
  }

  lemma OneChunk(c: Channel, chunk: string, f: Contents)
    requires c.inFlight <= Control.CALLS
    ensures Timeline(c, [chunk], [0], f) == Arrive(c, chunk, f)
  {
    var d := Finished(Arrive(c, chunk, f), 0);
    assert [chunk][1..] == [] && [0][1..] == [];
    assert Timeline(d, [], [], f) == d;
  }

  /** A line that shuts the channel and is not the last one read tells two cuts apart. */
  lemma {:induction false} ShutShowsChunking(stream: string, f: Contents, i: nat)
    requires var read := Arrive(Idle, stream, f).reader.read; i < |read| - 1 && Shuts(Plain(f), read, i)
    ensures !ChunkingIsInvisible(stream, f)
  {
    var (r, handle) := (Start.(buffer := stream), Within(f, 0, 0));
    assert Start.buffer + stream == stream;
    var whole := Arrive(Idle, stream, f).reader.read;
    ThrowIsLast(r, handle, i);
    var p := CutAfterShut(r, handle, i, whole);
    assert Start.buffer + stream[..p] == stream[..p];
    Tells(stream, p, 0, f);
  }

  /** The stream up to its last line was read, and the channel is open and has nothing left over. */
  predicate ReadUpTo(r: Reader, handle: Handler, p: nat, read: seq<string>)
    requires read != []
  {
    && p <= |r.buffer|
    && Drain(r.(buffer := r.buffer[..p]), handle) == Reader("", read[..|read| - 1], false)
    && Begins(r.buffer[p..], read[|read| - 1])
  }

  /** The text begins with the line, which is complete and not too long. */
  predicate Begins(text: string, line: string) {
    Break(text) < |text| && text[..Break(text)] == line && Bytes(line) <= LIMIT
  }

  lemma BeginsLater(r: Reader, handle: Handler, q: nat, line: string)
    requires HasLine(r) && q <= |Take(r, handle).buffer| && Begins(Take(r, handle).buffer[q..], line)
    ensures Begins(r.buffer[Break(r.buffer) + 1 + q..], line)
  {
    var n := Break(r.buffer) + 1;
    assert Take(r, handle).buffer == r.buffer[n..];
    assert r.buffer[n + q..] == r.buffer[n..][q..];
  }

  lemma CutFirst(r: Reader, handle: Handler, read: seq<string>) returns (p: nat)
    requires !r.closed && read == Drain(r, handle).read && |read| == |r.read| + 1
    ensures ReadUpTo(r, handle, p, read)
  {
    DrainGrows(Take(r, handle), handle);
    assert Take(r, handle).read == read && r.buffer[0..] == r.buffer;
    assert read[..|read| - 1] == r.read;
    DrainsNothing(r.(buffer := r.buffer[..0]), handle);
    p := 0;
  }

  lemma CutNext(r: Reader, handle: Handler, q: nat, read: seq<string>) returns (p: nat)
    requires HasLine(r) && !Throws(r, handle) && read != [] && ReadUpTo(Take(r, handle), handle, q, read)
    ensures ReadUpTo(r, handle, p, read)
  {
    p := Break(r.buffer) + 1 + q;
    CutDrains(r, q, handle);
    BeginsLater(r, handle, q, read[|read| - 1]);
    assert r.(buffer := r.buffer[..p]) == Cut(r, q);
  }

  lemma FirstStaysOpen(r: Reader, handle: Handler)
    requires !r.closed && |r.read| + 1 < |Drain(r, handle).read|
    requires OnlyLastShuts(handle, Drain(r, handle).read, |r.read|)
    ensures HasLine(r) && !Throws(r, handle) && !Take(r, handle).closed
    ensures Drain(r, handle) == Drain(Take(r, handle), handle) && |Take(r, handle).read| == |r.read| + 1
    ensures |Take(r, handle).buffer| < |r.buffer|
    ensures OnlyLastShuts(handle, Drain(r, handle).read, |Take(r, handle).read|)
  {
    var (next, read) := (Take(r, handle), Drain(r, handle).read);
    ThrowEnds(r, handle, |r.read|);
    DrainGrows(next, handle);
    assert next.read[..|r.read|] == r.read == read[..|r.read|] && next.read[|r.read|] == read[|r.read|];
    assert !Shuts(handle, read, |r.read|);
  }

  /** Where the last of the lines that are read begins. */
  lemma {:induction false} CutBeforeLast(r: Reader, handle: Handler, read: seq<string>) returns (p: nat)
    requires !r.closed && |r.read| < |read| && read == Drain(r, handle).read
    requires OnlyLastShuts(handle, read, |r.read|)
    ensures ReadUpTo(r, handle, p, read)
    decreases |r.buffer|
  {
    if |read| == |r.read| + 1 {
      p := CutFirst(r, handle, read);
    } else {
      FirstStaysOpen(r, handle);
      p := CutBeforeLast(Take(r, handle), handle, read);
      p := CutNext(r, handle, p, read);
    }
  }

  /** With room for one more request, a line that asks is handed on. */
  lemma AskIsTaken(c: Channel, chunk: string, f: Contents, line: string)
    requires !c.reader.closed && c.reader.buffer == "" && c.inFlight < Control.CALLS
    requires Begins(chunk, line) && f(c.reader.read, line).asks
    ensures Arrive(c, chunk, f).asked > c.asked
  {
    var (from, r) := (|c.reader.read|, c.reader.(buffer := chunk));
    var handle := Within(f, from, c.inFlight);
    assert c.reader.buffer + chunk == chunk;
    FirstIsRead(r, line, handle);
    AsksMore(f, c.reader.read, line, from);
    AsksSplit(f, c.reader.read + [line], Drain(r, handle).read, from);
  }

  lemma FirstIsRead(r: Reader, line: string, handle: Handler)
    requires Begins(r.buffer, line)
    ensures r.read + [line] <= Drain(r, handle).read
  {
    DrainGrows(Take(r, handle), handle);
  }

  /** At most the limit was handed on from one chunk, and the request that exceeds it is the last line. */
  lemma {:induction false} ExceedingIsLast(r: Reader, f: Contents, from: nat, inFlight: nat)
    requires from <= |r.read| && inFlight + Asks(f, r.read, from) <= Control.CALLS
    requires inFlight + Asks(f, Drain(r, Within(f, from, inFlight)).read, from) > Control.CALLS
    ensures var read := Drain(r, Within(f, from, inFlight)).read;
            && |read| > |r.read| && f(read[..|read| - 1], read[|read| - 1]).asks
            && inFlight + Asks(f, read[..|read| - 1], from) == Control.CALLS
    decreases |r.buffer|
  {
    var handle := Within(f, from, inFlight);
    if HasLine(r) {
      var line := r.buffer[..Break(r.buffer)];
      AsksMore(f, r.read, line, from);
      if !Throws(r, handle) {
        assert Take(r, handle).read == r.read + [line];
        ExceedingIsLast(Take(r, handle), f, from, inFlight);
      } else {
        ThrownIsLast(r, handle);
      }
    }
  }

  lemma ThrownIsLast(r: Reader, handle: Handler)
    requires HasLine(r) && Throws(r, handle)
    ensures var (read, line) := (Drain(r, handle).read, r.buffer[..Break(r.buffer)]);
            if Bytes(line) > LIMIT then read == r.read
            else read == r.read + [line] && read[..|read| - 1] == r.read
  {
    assert Drain(r, handle) == Take(r, handle);
  }

  /** A stream with one request too many can be cut before it, with all the others in flight. */
  lemma {:induction false} FullBeforeLast(stream: string, f: Contents) returns (p: nat)
    requires var read := Arrive(Idle, stream, f).reader.read;
             Asks(f, read, 0) > Control.CALLS && OnlyLastShuts(Plain(f), read, 0)
    ensures var read := Arrive(Idle, stream, f).reader.read;
            && p <= |stream| && read != []
            && Arrive(Idle, stream[..p], f)
               == Channel(Reader("", read[..|read| - 1], false), Control.CALLS, Control.CALLS)
            && Begins(stream[p..], read[|read| - 1]) && f(read[..|read| - 1], read[|read| - 1]).asks
  {
    var (r, handle) := (Start.(buffer := stream), Within(f, 0, 0));
    assert Start.buffer + stream == stream;
    var read := Drain(r, handle).read;
    ExceedingIsLast(r, f, 0, 0);
    forall i | 0 <= i < |read| - 1 ensures !Shuts(handle, read, i) {
      assert !Shuts(Plain(f), read, i);
    }
    p := CutBeforeLast(r, handle, read);
    assert Start.buffer + stream[..p] == stream[..p];
  }

  lemma AskedAtMost(stream: string, f: Contents)
    ensures Arrive(Idle, stream, f).asked <= Control.CALLS
  {
  }

  /** One request more than the limit in one chunk is refused, and is not when one finishes before it comes. */
  lemma {:induction false} LimitShowsChunking(stream: string, f: Contents)
    requires var read := Arrive(Idle, stream, f).reader.read;
             Asks(f, read, 0) > Control.CALLS && OnlyLastShuts(Plain(f), read, 0)
    ensures !ChunkingIsInvisible(stream, f)
  {
    var p := FullBeforeLast(stream, f);
    var read := Arrive(Idle, stream, f).reader.read;
    AskIsTaken(Finished(Arrive(Idle, stream[..p], f), 1), stream[p..], f, read[|read| - 1]);
    AskedAtMost(stream, f);
    Tells(stream, p, 1, f);
  }

  /**
   However a stream is cut and whenever requests finish between the chunks, the lines read, the
   requests handed on and the outcome are those of the uncut stream, exactly when the uncut
   stream reads no more requests than may be in flight, and no line but the last one read closes
   the channel from inside its handler.
   */
  lemma {:induction false} ChunkingIsInvisibleExactly(stream: string, f: Contents)
    ensures var read := Arrive(Idle, stream, f).reader.read;
            ChunkingIsInvisible(stream, f)
            <==> Asks(f, read, 0) <= Control.CALLS && OnlyLastShuts(Plain(f), read, 0)
  {
    var read := Arrive(Idle, stream, f).reader.read;
    if !OnlyLastShuts(Plain(f), read, 0) {
      var i :| 0 <= i < |read| - 1 && Shuts(Plain(f), read, i);
      ShutShowsChunking(stream, f, i);
    } else if Asks(f, read, 0) > Control.CALLS {
      LimitShowsChunking(stream, f);
    } else {
      WithinLimit(Start.(buffer := Start.buffer + stream), f, 0, 0);
      forall chunks: seq<string>, done: seq<nat> | Joined(chunks) == stream && |done| == |chunks|
        ensures Alike(Timeline(Idle, chunks, done, f), Arrive(Idle, stream, f))
      {
        TimelineAgrees(Idle, chunks, done, f);
      }
    }
  }

  // ------------------------------------------------------------ the data handler

  class LineReader {
    var buffer: string
    var read: seq<string>
    var closed: bool
    var inFlight: nat
    var asked: nat

    constructor ()
      ensures View() == Idle
    {
      buffer, read, closed, inFlight, asked := "", [], false, 0, 0;
    }

    function View(): Channel
      reads this
    {
      Channel(Reader(buffer, read, closed), inFlight, asked)
    }

    /** One complete line is handled; `thrown` says that an error ends the loop. */
    method Receive(end: nat, f: Contents, ghost from: nat, ghost before: nat) returns (thrown: bool)
      requires end == Break(buffer) < |buffer| && from <= |read|
      requires inFlight == before + Asks(f, read, from) <= Control.CALLS
      modifies this
      ensures var (r, handle) := (old(View()).reader, Within(f, from, before));
              View().reader == Take(r, handle) && (thrown <==> Throws(r, handle))
      ensures from <= |read| && |buffer| < old(|buffer|)
      ensures inFlight == Min(before + Asks(f, read, from), Control.CALLS)
          && asked - old(asked) == inFlight - old(inFlight)
      ensures !thrown ==> inFlight == before + Asks(f, read, from)
    {
      var line := buffer[..end];
      buffer := buffer[end + 1..];
      if Bytes(line) > LIMIT {
        closed := true;
        return true;
      }
      var content := f(read, line);
      AsksMore(f, read, line, from);
      read := read + [line];
      if content.asks && inFlight >= Control.CALLS {
        closed := true;
        return true;
      }
      if content.asks {
        inFlight, asked := inFlight + 1, asked + 1;
      }
      closed := closed || content.verdict != Accept;
      thrown := content.verdict == Throw;
    }

    /** Handles complete lines until none is left. It does not look at `closed`: only a thrown error ends it early. */
    method ReadLines(f: Contents, ghost from: nat, ghost before: nat)
      requires from == |read| && before == inFlight <= Control.CALLS
      modifies this
      ensures View().reader == Drain(old(View()).reader, Within(f, from, before))
      ensures inFlight == Min(before + Asks(f, read, from), Control.CALLS) && asked - old(asked) == inFlight - before
    {
      ghost var handle := Within(f, from, before);
      ghost var drained := Drain(View().reader, handle);
      var end := Break(buffer);
      while end < |buffer|
        invariant end == Break(buffer) && from <= |read|
        invariant Drain(View().reader, handle) == drained
        invariant inFlight == before + Asks(f, read, from) <= Control.CALLS
        invariant asked - old(asked) == inFlight - before
        decreases |buffer|
      {
        var thrown := Receive(end, f, from, before);
        if thrown {
          return;
        }
        end := Break(buffer);
      }
      if Bytes(buffer) > LIMIT {
        closed := true;
      }
    }

    /** One data event. */
    method OnData(chunk: string, f: Contents)
      requires inFlight <= Control.CALLS
      modifies this
      ensures inFlight <= Control.CALLS && View() == Arrive(old(View()), chunk, f)
    {
      if closed {
        return;
      }
      buffer := buffer + chunk;
      ReadLines(f, |read|, inFlight);
    }

    /** One request finishes. */
    method OnFinish()
      requires 0 < inFlight
      modifies `inFlight
      ensures View() == Finished(old(View()), 1)
    {
      inFlight := inFlight - 1;
    }
  }
}
