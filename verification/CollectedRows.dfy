/**
 One collected value: what the agent makes of a provider's rows, how it is cut down before it is
 stored, and how it is handed out again page by page while others may be writing.
 */
module CollectedRows {

  datatype Option<+T> = None | Some(value: T)

  datatype Result<+T> = Ok(value: T) | Err(error: Error)

  datatype Error = Capacity | Conflict | Denied | Protocol | Untrusted

  datatype Quality = Complete | Partial | Truncated | Refused | Missing | Unsupported | Failed | NotCollected

  /** A row, by its content and the bytes of its JSON, which are never none. */
  datatype RawRow = RawRow(content: nat, bytes: nat)
  type Row = r: RawRow | r.bytes > 0 witness RawRow(0, 1)

  /** Named values, and the bytes of their JSON. */
  datatype Fields = Fields(content: map<string, nat>, bytes: nat)

  const NO_FIELDS := Fields(map[], 2)

  datatype Collected = Collected(query: string, request: Option<string>, at: Option<nat>, quality: Quality,
                                 complete: bool,
                                 fields: Fields, rows: seq<Row>)

  const ROW_BYTES: nat := 262144
  const FIELD_BYTES: nat := 16384
  const PAGE_BYTES: nat := 49152
  const PAGE_ROWS: nat := 128
  const U32: nat := 0x1_0000_0000

  function Sum(rows: seq<Row>): nat {
    if rows == [] then 0 else rows[0].bytes + Sum(rows[1..])
  }

  lemma {:induction false} SumAdd(a: seq<Row>, b: seq<Row>)
    ensures Sum(a + b) == Sum(a) + Sum(b)
  {
    if a == [] {
      assert a + b == b;
    } else {
      SumAdd(a[1..], b);
      assert (a + b)[1..] == a[1..] + b;
    }
  }

  lemma {:induction false} RowsCost(rows: seq<Row>)
    ensures |rows| <= Sum(rows)
  {
    if rows != [] {
      RowsCost(rows[1..]);
    }
  }

  // ------------------------------------------------------------------- bounded

  /** Each row in turn is kept if it still fits what is left. */
  function Retain(rows: seq<Row>, left: nat): seq<Row> {
    if rows == [] then []
    else if rows[0].bytes <= left then [rows[0]] + Retain(rows[1..], left - rows[0].bytes)
    else Retain(rows[1..], left)
  }

  function Bounded(v: Collected): Collected {
    var w := if v.fields.bytes > FIELD_BYTES then v.(fields := NO_FIELDS, quality := Truncated, complete := false)
        else v;
    var rows := Retain(v.rows, ROW_BYTES);
    if |rows| != |v.rows| then w.(rows := rows, quality := Truncated, complete := false) else w.(rows := rows)
  }

  lemma {:induction false} RetainFits(rows: seq<Row>, left: nat)
    ensures Sum(Retain(rows, left)) <= left && |Retain(rows, left)| <= |rows|
  {
    if rows != [] {
      if rows[0].bytes <= left {
        RetainFits(rows[1..], left - rows[0].bytes);
        assert ([rows[0]] + Retain(rows[1..], left - rows[0].bytes))[1..] == Retain(rows[1..], left - rows[0].bytes);
      } else {
        RetainFits(rows[1..], left);
      }
    }
  }

  /** No row is dropped exactly when they all fit, and then the rows are the same. */
  lemma {:induction false} RetainsAllExactly(rows: seq<Row>, left: nat)
    ensures Sum(rows) <= left <==> |Retain(rows, left)| == |rows|
    ensures Sum(rows) <= left <==> Retain(rows, left) == rows
  {
    if rows != [] {
      if rows[0].bytes <= left {
        RetainsAllExactly(rows[1..], left - rows[0].bytes);
        assert rows == [rows[0]] + rows[1..];
      } else {
        RetainFits(rows[1..], left);
      }
    }
  }

  /** What a stored value is like: its rows and fields are within their bounds. */
  predicate Fits(v: Collected) {
    Sum(v.rows) <= ROW_BYTES && v.fields.bytes <= FIELD_BYTES
  }

  /**
   Bounding changes nothing exactly when the value fits; otherwise it fits afterwards and says that
   something is missing.
   */
  lemma BoundedMarksEveryDrop(v: Collected)
    ensures Fits(Bounded(v))
    ensures Bounded(v) == v <==> Fits(v)
    ensures !Fits(v) ==> Bounded(v).quality == Truncated && !Bounded(v).complete
    ensures Bounded(v).rows == v.rows <==> Sum(v.rows) <= ROW_BYTES
  {
    RetainFits(v.rows, ROW_BYTES);
    RetainsAllExactly(v.rows, ROW_BYTES);
  }

  lemma BoundedIdempotent(v: Collected)
    ensures Bounded(Bounded(v)) == Bounded(v)
  {
    BoundedMarksEveryDrop(v);
    BoundedMarksEveryDrop(Bounded(v));
  }

  /** Rows that survive are rows of the original, in its order. */
  predicate Subsequence(a: seq<Row>, b: seq<Row>) {
    if a == [] then true
    else if b == [] then false
    else if a[0] == b[0] && Subsequence(a[1..], b[1..]) then true
    else Subsequence(a, b[1..])
  }

  lemma {:induction false} RetainInOrder(rows: seq<Row>, left: nat)
    ensures Subsequence(Retain(rows, left), rows)
  {
    if rows != [] {
      if rows[0].bytes <= left {
        RetainInOrder(rows[1..], left - rows[0].bytes);
        var rest := Retain(rows[1..], left - rows[0].bytes);
        assert Retain(rows, left) == [rows[0]] + rest;
        assert ([rows[0]] + rest)[1..] == rest;
      } else {
        RetainInOrder(rows[1..], left);
        assert Retain(rows, left) == Retain(rows[1..], left);
      }
    }
  }

  /** `safe` says that redaction finds nothing in the rows and fields. */
  method BoundedOf(v: Collected, safe: Collected -> bool) returns (r: Result<Collected>)
    ensures r == if safe(Bounded(v)) then Ok(Bounded(v)) else Err(Untrusted)
  {
    var w := v;
    if v.fields.bytes > FIELD_BYTES {
      w := w.(fields := NO_FIELDS, quality := Truncated, complete := false);
    }
    var kept: seq<Row> := [];
    var left: nat := ROW_BYTES;
    var i := 0;
    while i < |v.rows|
      invariant i <= |v.rows| && kept + Retain(v.rows[i..], left) == Retain(v.rows, ROW_BYTES)
    {
      var row := v.rows[i];
      assert v.rows[i..][1..] == v.rows[i + 1..];
      if row.bytes <= left {
        assert kept + ([row] + Retain(v.rows[i + 1..], left - row.bytes))
            == kept + [row] + Retain(v.rows[i + 1..], left - row.bytes);
        kept := kept + [row];
        left := left - row.bytes;
      }
      i := i + 1;
    }
    assert kept == Retain(v.rows, ROW_BYTES);
    if |kept| != |v.rows| {
      w := w.(quality := Truncated, complete := false);
    }
    w := w.(rows := kept);
    r := if safe(w) then Ok(w) else Err(Untrusted);
  }

  // --------------------------------------------------- values made for a local read

  /** A provider's row: whether it has exactly the schema and is accepted, and what it maps to, if it can be mapped. */
  datatype Provided = Provided(accepted: bool, image: Option<Row>)

  datatype Status = StatusComplete | StatusTruncated | StatusDenied | StatusMissing | StatusUnsupported
                  | StatusFailed | StatusInvalid | StatusTimeout | StatusOther

  /** `whole` is whether the result is complete for its query now. */
  datatype Observation = Observation(status: Status, whole: bool, rows: seq<Provided>, at: nat)

  /** A baseline field as it was observed. */
  datatype Base = Base(complete: bool, value: Option<nat>, list: bool)

  /**
   One query of a local read. `projected` are the fields of a single row, if the mapping makes
   any; `baseline` those of the whole read; `weigh` is the bytes of the JSON of fields.
   */
  datatype Source = Source(query: string, request: Option<string>, at: nat, result: Option<Observation>,
                           outputTruncated: bool, known: bool, safe: bool, exactlyOne: bool,
                           projected: Option<map<string, nat>>, baseline: Option<map<string, Base>>,
                           weigh: map<string, nat> -> nat)

  function StatusQuality(s: Status): Quality {
    match s
    case StatusTruncated => Truncated
    case StatusDenied => Refused
    case StatusMissing => Missing
    case StatusUnsupported => Unsupported
    case StatusOther => Partial
    case _ => Failed
  }

  /** The accepted rows, mapped; a row that is accepted and cannot be mapped fails the read. */
  function Accepted(rows: seq<Provided>): Result<seq<Row>> {
    if rows == [] then Ok([])
    else if rows[0].accepted && rows[0].image.None? then Err(Protocol)
    else match Accepted(rows[1..])
      case Err(e) => Err(e)
      case Ok(rest) => Ok(if rows[0].accepted then [rows[0].image.value] + rest else rest)
  }

  predicate Mappable(rows: seq<Provided>) {
    forall i :: 0 <= i < |rows| ==> rows[i].image.Some?
  }

  predicate AllAccepted(rows: seq<Provided>) {
    forall i :: 0 <= i < |rows| ==> rows[i].accepted
  }

  function Images(rows: seq<Provided>): seq<Row>
    requires Mappable(rows)
  {
    seq(|rows|, i requires 0 <= i < |rows| => rows[i].image.value)
  }

  lemma {:induction false} AcceptedAll(rows: seq<Provided>)
    ensures var r := Accepted(rows);
            && (r.Ok? ==> |r.value| <= |rows| && (|r.value| == |rows| <==> AllAccepted(rows)))
            && (AllAccepted(rows) ==> (r.Ok? <==> Mappable(rows)) && (r.Ok? ==> r.value == Images(rows)))
  {
    if rows != [] {
      AcceptedAll(rows[1..]);
      assert forall i :: 0 < i < |rows| ==> rows[i] == rows[1..][i - 1];
      assert AllAccepted(rows) <==> rows[0].accepted && AllAccepted(rows[1..]);
      assert Mappable(rows) <==> rows[0].image.Some? && Mappable(rows[1..]);
      if Mappable(rows) {
        assert Images(rows) == [rows[0].image.value] + Images(rows[1..]);
      }
    }
  }

  /** The row's own fields are asked of the mapping only for a whole result of exactly one row. */
  predicate SingleRow(s: Source) {
    s.result.Some? && s.result.value.whole && |s.result.value.rows| == 1 && s.exactlyOne
  }

  predicate Scalar(b: Base) {
    b.complete && b.value.Some? && !b.list
  }

  /** Baseline fields fill in what the row did not say. */
  function WithBaseline(fields: map<string, nat>, baseline: map<string, Base>): map<string, nat> {
    (map k | k in baseline && Scalar(baseline[k]) :: baseline[k].value.value) + fields
  }

  function FieldsOf(s: Source, content: map<string, nat>): Fields {
    if content == map[] then NO_FIELDS else Fields(content, s.weigh(content))
  }

  /** The value of one query but for its fields; the fields of its row come second. */
  function Observed(s: Source): Result<(Collected, map<string, nat>)> {
    var blank := Collected(s.query, s.request, Some(s.at),
                           if s.result.None? && s.outputTruncated then Truncated else Failed,
                           false, NO_FIELDS, []);
    if s.result.None? then Ok((blank, map[]))
    else
      var o := s.result.value;
      var v := blank.(at := Some(o.at), complete := o.whole,
                      quality := if o.whole then Complete else StatusQuality(o.status));
      if !s.known then Ok((v.(quality := Unsupported, complete := false), map[]))
      else if !s.safe then Ok((v.(quality := Refused, complete := false), map[]))
      else if SingleRow(s) && s.projected.None? then Err(Protocol)
      else
        match Accepted(o.rows)
        case Err(e) => Err(e)
        case Ok(rows) =>
          var w := v.(rows := rows);
          var fields := if SingleRow(s) then s.projected.value else map[];
          if |rows| == |o.rows| then Ok((w, fields))
          else Ok((w.(complete := false, quality := if rows == [] then Failed else Partial), fields))
  }

  /** The value of one query of a local read. */
  function NativeValue(s: Source): Result<Collected> {
    if s.baseline.None? then Err(Protocol)
    else match Observed(s)
      case Err(e) => Err(e)
      case Ok((v, fields)) => Ok(v.(fields := FieldsOf(s, WithBaseline(fields, s.baseline.value))))
  }

  /** What is stored of it: bounded, unless redaction would change it. */
  function Stored(s: Source, keep: Collected -> bool): Result<Collected> {
    match NativeValue(s)
    case Err(e) => Err(e)
    case Ok(v) => if keep(Bounded(v)) then Ok(Bounded(v)) else Err(Untrusted)
  }

  /** Completeness is claimed together with the quality, and only for every row in its order. */
  lemma NativeIsHonest(s: Source)
    requires NativeValue(s).Ok?
    ensures var v := NativeValue(s).value;
            (v.complete <==> v.quality == Complete)
            && (v.complete ==> s.result.Some? && s.result.value.whole && Mappable(s.result.value.rows)
                               && v.rows == Images(s.result.value.rows))
  {
    if s.result.Some? {
      AcceptedAll(s.result.value.rows);
    }
  }

  /** The same holds of what is stored, so a stored complete value lost no row and no field. */
  lemma StoredIsHonest(s: Source, keep: Collected -> bool)
    requires Stored(s, keep).Ok?
    ensures var b := Stored(s, keep).value;
            (b.complete <==> b.quality == Complete)
            && (b.complete ==> s.result.Some? && Mappable(s.result.value.rows) && b.rows == Images(s.result.value.rows)
                               && b.fields == NativeValue(s).value.fields)
  {
    var v := NativeValue(s).value;
    NativeIsHonest(s);
    RetainsAllExactly(v.rows, ROW_BYTES);
    BoundedMarksEveryDrop(v);
  }

  /** The fields of a value whose result is whole. */
  function WholeFields(s: Source): Fields
    requires s.baseline.Some? && (SingleRow(s) ==> s.projected.Some?)
  {
    FieldsOf(s, WithBaseline(if SingleRow(s) then s.projected.value else map[], s.baseline.value))
  }

  /** What it takes for a value to be made without failing and to claim completeness. */
  predicate Whole(s: Source) {
    && s.result.Some? && s.result.value.whole && s.known && s.safe && s.baseline.Some?
    && AllAccepted(s.result.value.rows) && Mappable(s.result.value.rows)
    && (SingleRow(s) ==> s.projected.Some?)
  }

  lemma WholeExactly(s: Source)
    ensures NativeValue(s).Ok? && NativeValue(s).value.complete <==> Whole(s)
    ensures Whole(s) ==> NativeValue(s).value.rows == Images(s.result.value.rows)
                         && NativeValue(s).value.fields == WholeFields(s)
  {
    if s.result.Some? {
      AcceptedAll(s.result.value.rows);
    }
  }

  /**
   A value is stored as complete exactly when the result was whole, known and safe, every row was
   accepted and mapped, and rows and fields fit their bounds and need no redaction.
   */
  lemma CompleteExactly(s: Source, keep: Collected -> bool)
    ensures Stored(s, keep).Ok? && Stored(s, keep).value.complete <==>
            && Whole(s) && Sum(Images(s.result.value.rows)) <= ROW_BYTES && WholeFields(s).bytes <= FIELD_BYTES
            && NativeValue(s).Ok? && keep(NativeValue(s).value)
  {
    WholeExactly(s);
    if NativeValue(s).Ok? {
      var v := NativeValue(s).value;
      BoundedMarksEveryDrop(v);
      RetainsAllExactly(v.rows, ROW_BYTES);
    }
  }

  /** The rows of one result: keep what the schema accepts, mapped, in order. */
  method MapRows(rows: seq<Provided>) returns (r: Result<seq<Row>>)
    ensures r == Accepted(rows)
  {
    var kept: seq<Row> := [];
    var i := 0;
    AfterNone(Accepted(rows));
    assert rows[0..] == rows;
    while i < |rows|
      invariant i <= |rows| && Accepted(rows) == After(kept, Accepted(rows[i..]))
    {
      assert rows[i..][1..] == rows[i + 1..];
      if rows[i].accepted {
        if rows[i].image.None? {
          return Err(Protocol);
        }
        AfterMore(kept, rows[i].image.value, Accepted(rows[i + 1..]));
        kept := kept + [rows[i].image.value];
      }
      i := i + 1;
    }
    assert kept + [] == kept;
    r := Ok(kept);
  }

  lemma AfterNone(rest: Result<seq<Row>>)
    ensures After([], rest) == rest
  {
    if rest.Ok? {
      assert [] + rest.value == rest.value;
    }
  }

  function After(kept: seq<Row>, rest: Result<seq<Row>>): Result<seq<Row>> {
    match rest
    case Err(e) => Err(e)
    case Ok(rows) => Ok(kept + rows)
  }

  lemma AfterMore(kept: seq<Row>, row: Row, rest: Result<seq<Row>>)
    ensures rest.Ok? ==> After(kept, Ok([row] + rest.value)) == After(kept + [row], rest)
  {
    if rest.Ok? {
      assert kept + ([row] + rest.value) == kept + [row] + rest.value;
    }
  }

  /** Baseline fields are entered one by one, and never over what is there. */
  method AddBaseline(fields: map<string, nat>, baseline: map<string, Base>) returns (all: map<string, nat>)
    ensures all == WithBaseline(fields, baseline)
  {
    all := fields;
    var todo := baseline.Keys;
    while todo != {}
      invariant todo <= baseline.Keys
      invariant all == (map k | k in baseline && k !in todo && Scalar(baseline[k]) :: baseline[k].value.value) + fields
      decreases todo
    {
      var k :| k in todo;
      todo := todo - {k};
      if Scalar(baseline[k]) && k !in all {
        all := all[k := baseline[k].value.value];
      }
    }
  }

  // --------------------------------------------------------------------- pages

  /** A cursor names the stored value it continues, by its digest, which is as good as the value. */
  datatype Cursor = Cursor(snapshot: Collected, offset: nat)

  /** The JSON bytes of a value without its rows. */
  type Weight = Collected -> nat

  datatype Page = Page(snapshot: Collected, rows: seq<Row>, next: Option<Cursor>)

  /**
   What one read finds: the stored value or else a blank one, whether the caller may see it, whether
   redaction finds nothing.
   */
  datatype Read = Read(stored: Option<Collected>, blank: Collected, allowed: bool, safe: bool, limit: nat)

  function Found(r: Read): Collected {
    if r.stored.Some? then r.stored.value else r.blank
  }

  /** JSON bytes of a value with these rows: the frame, the rows, and commas between them. */
  function PageSize(frame: nat, rows: seq<Row>): nat {
    frame + Sum(rows) + if rows == [] then 0 else |rows| - 1
  }

  /** Where a page that starts at `from` ends: rows are added while the page stays within its bytes. */
  function PageEnd(all: seq<Row>, from: nat, at: nat, limit: nat, frame: nat): (end: nat)
    requires from <= at <= |all|
    ensures at <= end <= |all|
    ensures end <= at + limit
    decreases limit
  {
    if limit == 0 || at == |all| || PageSize(frame, all[from..at + 1]) > PAGE_BYTES then at
    else PageEnd(all, from, at + 1, limit - 1, frame)
  }

  /** Offsets travel in 32 bits. */
  function ReadPage(weigh: Weight, r: Read, after: Option<Cursor>): Result<Page> {
    if !(1 <= r.limit <= PAGE_ROWS) then Err(Capacity)
    else if !r.allowed then Err(Denied)
    else
      var v := Found(r);
      if !r.safe then Err(Denied)
      else if after.Some? && after.value.snapshot != v then Err(Conflict)
      else
        var offset := if after.Some? then after.value.offset else 0;
        if offset > |v.rows| then Err(Protocol)
        else if weigh(v) > PAGE_BYTES then Err(Capacity)
        else
          var end := PageEnd(v.rows, offset, offset, r.limit, weigh(v));
          if offset < |v.rows| && end == offset then Err(Capacity)
          else Ok(Page(v, v.rows[offset..end], if end < |v.rows| then Some(Cursor(v, end % U32)) else None))
  }

  /** A page never exceeds its bytes, and stops only at the limit, at the end, or before a row that would. */
  lemma {:induction false} PageEndMaximal(all: seq<Row>, from: nat, at: nat, limit: nat, frame: nat)
    requires from <= at <= |all| && PageSize(frame, all[from..at]) <= PAGE_BYTES
    ensures var end := PageEnd(all, from, at, limit, frame);
            && PageSize(frame, all[from..end]) <= PAGE_BYTES
            && (end == at + limit || end == |all| || PageSize(frame, all[from..end + 1]) > PAGE_BYTES)
    decreases limit
  {
    if !(limit == 0 || at == |all| || PageSize(frame, all[from..at + 1]) > PAGE_BYTES) {
      PageEndMaximal(all, from, at + 1, limit - 1, frame);
    }
  }

  /** The page is filled as far as it goes. */
  method FillPage(all: seq<Row>, offset: nat, limit: nat, frame: nat) returns (rows: seq<Row>)
    requires offset <= |all| && frame <= PAGE_BYTES
    ensures rows == all[offset..PageEnd(all, offset, offset, limit, frame)]
    ensures PageSize(frame, rows) <= PAGE_BYTES
  {
    PageEndMaximal(all, offset, offset, limit, frame);
    rows := [];
    var i := offset;
    while i < |all| && i < offset + limit
      invariant offset <= i <= |all| && i <= offset + limit
      invariant rows == all[offset..i]
      invariant PageEnd(all, offset, i, offset + limit - i, frame) == PageEnd(all, offset, offset, limit, frame)
    {
      rows := rows + [all[i]];
      assert rows == all[offset..i + 1];
      if PageSize(frame, rows) > PAGE_BYTES {
        rows := rows[..|rows| - 1];
        assert rows == all[offset..i];
        return;
      }
      i := i + 1;
    }
  }

  // ------------------------------------------------------------ following cursors

  datatype Outcome = Finished(rows: seq<Row>) | Stopped(rows: seq<Row>, error: Error) | Pending(rows: seq<Row>)

  /** One read after the other, each with the cursor of the last; writes may happen in between. */
  function Follow(weigh: Weight, visits: seq<Read>, after: Option<Cursor>): Outcome
    decreases |visits|
  {
    if visits == [] then Pending([])
    else match ReadPage(weigh, visits[0], after)
      case Err(e) => Stopped([], e)
      case Ok(page) =>
        if page.next.None? then Finished(page.rows)
        else match Follow(weigh, visits[1..], page.next)
          case Finished(rows) => Finished(page.rows + rows)
          case Stopped(rows, e) => Stopped(page.rows + rows, e)
          case Pending(rows) => Pending(page.rows + rows)
  }

  predicate AllFit(visits: seq<Read>) {
    forall i :: 0 <= i < |visits| ==> Fits(Found(visits[i]))
  }

  /** Offsets of stored values never wrap. */
  lemma OffsetFits(v: Collected, offset: nat)
    requires Fits(v) && offset <= |v.rows|
    ensures offset % U32 == offset
  {
    RowsCost(v.rows);
  }

  /** A page that can be continued moves on. */
  lemma PageAdvances(weigh: Weight, r: Read, after: Option<Cursor>)
    requires ReadPage(weigh, r, after).Ok? && ReadPage(weigh, r, after).value.next.Some? && Fits(Found(r))
    ensures var page := ReadPage(weigh, r, after).value;
            var from := if after.Some? then after.value.offset else 0;
            && page.next.value.snapshot == Found(r) && from < page.next.value.offset < |Found(r).rows|
            && page.rows == Found(r).rows[from..page.next.value.offset]
  {
    var v := Found(r);
    var from := if after.Some? then after.value.offset else 0;
    OffsetFits(v, PageEnd(v.rows, from, from, r.limit, weigh(v)));
  }

  lemma {:induction false} FollowFrom(weigh: Weight, visits: seq<Read>, v: Collected, offset: nat)
    requires AllFit(visits) && Fits(v) && offset < |v.rows|
    ensures var o := Follow(weigh, visits, Some(Cursor(v, offset)));
            && (o.Finished? ==> o.rows == v.rows[offset..])
            && (o.Stopped? ==> o.error in {Conflict, Capacity, Denied} && o.rows <= v.rows[offset..])
            && (o.Pending? ==> |visits| <= |o.rows| < |v.rows| - offset && o.rows <= v.rows[offset..])
    decreases |visits|
  {
    if visits != [] {
      var r := visits[0];
      var p := ReadPage(weigh, r, Some(Cursor(v, offset)));
      if p.Ok? && p.value.next.Some? {
        PageAdvances(weigh, r, Some(Cursor(v, offset)));
        var next := p.value.next.value.offset;
        assert v.rows[offset..] == v.rows[offset..next] + v.rows[next..];
        FollowFrom(weigh, visits[1..], v, next);
        PrefixAdds(v.rows[offset..next], Follow(weigh, visits[1..], p.value.next).rows, v.rows[next..]);
      }
    }
  }

  lemma PrefixAdds(a: seq<Row>, b: seq<Row>, c: seq<Row>)
    ensures b <= c ==> a + b <= a + c
  {
  }

  /**
   Whatever is written between the reads, following the cursors from the start yields exactly the
   rows of the value that was first read, or ends with a conflict, a row or frame too large for a
   page, or a refusal. It takes at most as many reads as there are rows, and one for no rows.
   */
  lemma {:induction false} FollowingIsOneSnapshot(weigh: Weight, visits: seq<Read>)
    requires AllFit(visits) && visits != []
    ensures var o, v := Follow(weigh, visits, None), Found(visits[0]);
            && (o.Finished? ==> o.rows == v.rows)
            && (o.Stopped? ==> o.error in {Conflict, Capacity, Denied} && o.rows <= v.rows)
            && (o.Pending? ==> |visits| <= |o.rows| < |v.rows| && o.rows <= v.rows)
  {
    var r := visits[0];
    var v := Found(r);
    var p := ReadPage(weigh, r, None);
    if p.Ok? {
      if p.value.next.Some? {
        PageAdvances(weigh, r, None);
        var next := p.value.next.value.offset;
        assert v.rows == v.rows[0..next] + v.rows[next..];
        FollowFrom(weigh, visits[1..], v, next);
        PrefixAdds(v.rows[0..next], Follow(weigh, visits[1..], p.value.next).rows, v.rows[next..]);
      } else {
        assert v.rows[0..|v.rows|] == v.rows;
      }
    }
  }

  /**
   When nobody writes, and the caller stays welcome, a value is read to its end exactly when its
   frame and every row fit a page.
   */
  predicate Readable(weigh: Weight, v: Collected) {
    weigh(v) <= PAGE_BYTES && forall i :: 0 <= i < |v.rows| ==> weigh(v) + v.rows[i].bytes <= PAGE_BYTES
  }

  predicate Quiet(visits: seq<Read>, v: Collected) {
    forall i :: 0 <= i < |visits| ==>
        Found(visits[i]) == v && visits[i].allowed && visits[i].safe
        && 1 <= visits[i].limit <= PAGE_ROWS
  }

  lemma OneRow(row: Row)
    ensures Sum([row]) == row.bytes
  {
    assert [row][1..] == [];
  }

  /** A page stands still only at a row that does not fit a page of its own. */
  lemma PageMoves(all: seq<Row>, offset: nat, limit: nat, frame: nat)
    requires offset < |all| && limit >= 1 && frame <= PAGE_BYTES
    ensures PageEnd(all, offset, offset, limit, frame) == offset <==> frame + all[offset].bytes > PAGE_BYTES
  {
    assert all[offset..offset + 1] == [all[offset]];
    OneRow(all[offset]);
  }

  lemma {:induction false} QuietFollow(weigh: Weight, visits: seq<Read>, v: Collected, offset: nat)
    requires Quiet(visits, v) && Fits(v) && Readable(weigh, v) && offset < |v.rows| && |visits| >= |v.rows| - offset
    ensures Follow(weigh, visits, Some(Cursor(v, offset))) == Finished(v.rows[offset..])
    decreases |visits|
  {
    var r := visits[0];
    PageMoves(v.rows, offset, r.limit, weigh(v));
    var p := ReadPage(weigh, r, Some(Cursor(v, offset)));
    if p.value.next.Some? {
      PageAdvances(weigh, r, Some(Cursor(v, offset)));
      var next := p.value.next.value.offset;
      assert v.rows[offset..] == v.rows[offset..next] + v.rows[next..];
      QuietFollow(weigh, visits[1..], v, next);
    }
  }

  /** A row too large for any page, which storing allows, stops every reader at it. */
  lemma {:induction false} BlockedFollow(weigh: Weight, visits: seq<Read>, v: Collected, offset: nat, i: nat)
    requires Quiet(visits, v) && Fits(v) && offset <= i < |v.rows| && weigh(v) <= PAGE_BYTES
        && weigh(v) + v.rows[i].bytes > PAGE_BYTES
    ensures !Follow(weigh, visits, Some(Cursor(v, offset))).Finished?
    decreases |visits|
  {
    if visits != [] {
      var r := visits[0];
      var p := ReadPage(weigh, r, Some(Cursor(v, offset)));
      PageMoves(v.rows, offset, r.limit, weigh(v));
      if p.Ok? {
        PageStopsBefore(weigh, v, offset, r.limit, i);
        OffsetFits(v, PageEnd(v.rows, offset, offset, r.limit, weigh(v)));
        BlockedFollow(weigh, visits[1..], v, p.value.next.value.offset, i);
      }
    }
  }

  lemma {:induction false} SumHolds(rows: seq<Row>, i: nat)
    requires i < |rows|
    ensures rows[i].bytes <= Sum(rows)
  {
    if i > 0 {
      SumHolds(rows[1..], i - 1);
    }
  }

  lemma PageStopsBefore(weigh: Weight, v: Collected, offset: nat, limit: nat, i: nat)
    requires offset <= i < |v.rows| && weigh(v) <= PAGE_BYTES && weigh(v) + v.rows[i].bytes > PAGE_BYTES
    ensures PageEnd(v.rows, offset, offset, limit, weigh(v)) <= i
  {
    PageEndMaximal(v.rows, offset, offset, limit, weigh(v));
    var end := PageEnd(v.rows, offset, offset, limit, weigh(v));
    if end > i {
      SumHolds(v.rows[offset..end], i - offset);
      assert false;
    }
  }

  lemma {:induction false} ReadableExactly(weigh: Weight, visits: seq<Read>, v: Collected)
    requires Quiet(visits, v) && Fits(v) && |visits| >= 1 && |visits| >= |v.rows|
    ensures Follow(weigh, visits, None) == Finished(v.rows) <==> Readable(weigh, v)
  {
    var r := visits[0];
    var p := ReadPage(weigh, r, None);
    if v.rows != [] && weigh(v) <= PAGE_BYTES {
      PageMoves(v.rows, 0, r.limit, weigh(v));
      FirstFollow(weigh, visits, v);
      if Readable(weigh, v) {
        QuietFollow(weigh, visits, v, 0);
      } else {
        var i :| 0 <= i < |v.rows| && weigh(v) + v.rows[i].bytes > PAGE_BYTES;
        BlockedFollow(weigh, visits, v, 0, i);
      }
      assert v.rows[0..] == v.rows;
    }
  }

  /** The first read is a read from offset zero. */
  lemma {:induction false} FirstFollow(weigh: Weight, visits: seq<Read>, v: Collected)
    requires Quiet(visits, v) && visits != []
    ensures Follow(weigh, visits, None) == Follow(weigh, visits, Some(Cursor(v, 0)))
  {
    assert ReadPage(weigh, visits[0], None) == ReadPage(weigh, visits[0], Some(Cursor(v, 0)));
  }
}
