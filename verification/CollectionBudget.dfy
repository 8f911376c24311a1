/**
 The output budget of a native collection. Before a provider may emit native bytes, room is
 reserved for the bounded failure evidence of every query that is still pending; whatever the
 providers do, the serialized result and the observed bytes together stay inside the budget.
 */
module CollectionBudget {

  datatype Option<+T> = None | Some(value: T)

  const I64_MAX: nat := 0x7fff_ffff_ffff_ffff

  datatype Status = Complete | Partial | Truncated | Timeout | Invalid | SourceUnavailable | OtherStatus(bytes: nat)

  /** Scan evidence, by the bytes of its parts; times are shown in decimal. */
  datatype Evidence = Evidence(mode: nat, source: Option<nat>, started: Option<nat>, finished: Option<nat>)

  /** A query result. A row is the bytes of its serialized form; `extra` covers everything else. */
  datatype QueryResult = QueryResult(digest: nat, at: int, status: Status, complete: bool,
                                     rows: seq<nat>, extra: nat, scan: Option<Evidence>)

  /** `scan` is the scan mode of a query that carries scan evidence. */
  datatype Query = Query(digest: nat, key: nat, scan: Option<nat>, outputBytes: nat)

  datatype Plan = Plan(queries: seq<Query>, outputBytes: nat, maxRows: nat)

  // ------------------------------------------------------------------ sizes

  function Digits(n: nat): (d: nat)
    ensures d >= 1
  {
    if n < 10 then 1 else 1 + Digits(n / 10)
  }

  function Power(n: nat): (p: nat)
    ensures p >= 1
  {
    if n == 0 then 1 else 10 * Power(n - 1)
  }

  lemma {:induction false} DigitsBelow(n: nat, k: nat)
    requires k >= 1 && n < Power(k)
    ensures Digits(n) <= k
    decreases k
  {
    if n >= 10 {
      DigitsBelow(n / 10, k - 1);
    }
  }

  lemma {:induction false} DigitsAbove(n: nat, k: nat)
    requires k >= 1 && n >= Power(k - 1)
    ensures Digits(n) >= k
    decreases k
  {
    if k > 1 {
      DigitsAbove(n / 10, k - 1);
    }
  }

  lemma Powers()
    ensures Power(18) == 1_000_000_000_000_000_000 && Power(19) == 10_000_000_000_000_000_000
  {
    assert Power(6) == 1000000;
    assert Power(12) == 1000000 * Power(6);
    assert Power(18) == 1000000 * Power(12);
    assert Power(19) == 10 * Power(18);
  }

  /** No time needs more than 19 digits, and the largest needs exactly those. */
  lemma TimeDigits(t: nat)
    requires t <= I64_MAX
    ensures Digits(t) <= 19 == Digits(I64_MAX)
  {
    Powers();
    DigitsBelow(t, 19);
    DigitsBelow(I64_MAX, 19);
    DigitsAbove(I64_MAX, 19);
  }

  function StatusBytes(s: Status): nat {
    match s
    case Complete => 8
    case Partial => 7
    case Truncated => 9
    case Timeout => 7
    case Invalid => 7
    case SourceUnavailable => 17
    case OtherStatus(n) => n
  }

  const NULL_BYTES := 4
  const ENTRY_FIXED := 160
  const RESULT_FIXED := 120
  const SOURCE_BYTES := 257     // a quoted source of 255 plain characters
  const SLACK := 128            // granted per query by the diagnostic limit
  const CONTROL := 512          // the fixed part of the diagnostic limit
  const GROWTH := 20            // by which a skipped entry can outgrow its timeout, without evidence
  const EVIDENCE := 283         // by which scan evidence can outgrow its absence

  function TimeBytes(t: int): nat {
    if t < 0 then 20 else Digits(t)
  }

  function EvidenceBytes(e: Option<Evidence>): nat {
    match e
    case None => NULL_BYTES
    case Some(v) =>
      v.mode + (if v.source.Some? then v.source.value else NULL_BYTES)
      + (if v.started.Some? then Digits(v.started.value) else NULL_BYTES)
      + (if v.finished.Some? then Digits(v.finished.value) else NULL_BYTES)
  }

  function RowBytes(rows: seq<nat>): nat {
    if rows == [] then 0 else rows[0] + 1 + RowBytes(rows[1..])
  }

  function EntryBytes(r: QueryResult): nat {
    ENTRY_FIXED + TimeBytes(r.at) + StatusBytes(r.status) + (if r.complete then 4 else 5)
    + RowBytes(r.rows) + r.extra + EvidenceBytes(r.scan)
  }

  /** Entries stand in query order, one per query. */
  function Entries(queries: seq<Query>, entries: seq<QueryResult>): nat
    requires |queries| == |entries|
  {
    if queries == [] then 0
    else queries[0].key + EntryBytes(entries[0]) + Entries(queries[1..], entries[1..])
  }

  function ResultBytes(plan: Plan, entries: seq<QueryResult>, at: nat): nat
    requires |plan.queries| == |entries|
  {
    RESULT_FIXED + Digits(at) + Entries(plan.queries, entries)
  }

  function Rows(entries: seq<QueryResult>): nat {
    if entries == [] then 0 else |entries[0].rows| + Rows(entries[1..])
  }

  lemma {:induction false} EntriesUpdate(queries: seq<Query>, entries: seq<QueryResult>, k: nat, v: QueryResult)
    requires |queries| == |entries| && k < |entries|
    ensures Entries(queries, entries[k := v]) == Entries(queries, entries) - EntryBytes(entries[k]) + EntryBytes(v)
  {
    if k > 0 {
      EntriesUpdate(queries[1..], entries[1..], k - 1, v);
      assert entries[k := v][1..] == entries[1..][k - 1 := v];
    } else {
      assert entries[k := v][1..] == entries[1..];
    }
  }

  lemma {:induction false} EntriesBelow(queries: seq<Query>, a: seq<QueryResult>, b: seq<QueryResult>)
    requires |queries| == |a| == |b|
    requires forall i :: 0 <= i < |a| ==> EntryBytes(a[i]) <= EntryBytes(b[i])
    ensures Entries(queries, a) <= Entries(queries, b)
  {
    if queries != [] {
      EntriesBelow(queries[1..], a[1..], b[1..]);
    }
  }

  lemma {:induction false} RowsUpdate(entries: seq<QueryResult>, k: nat, v: QueryResult)
    requires k < |entries|
    ensures Rows(entries[k := v]) == Rows(entries) - |entries[k].rows| + |v.rows|
  {
    if k > 0 {
      RowsUpdate(entries[1..], k - 1, v);
      assert entries[k := v][1..] == entries[1..][k - 1 := v];
    } else {
      assert entries[k := v][1..] == entries[1..];
    }
  }

  // --------------------------------------------------------------- failures

  function Failure(q: Query, status: Status, at: int): QueryResult {
    QueryResult(q.digest, at, status, false, [], 0,
                if q.scan.Some? then Some(Evidence(q.scan.value, None, None, None)) else None)
  }

  /** The worst failure envelope: used only to reserve capacity, never as evidence. */
  function FailureReserve(q: Query): QueryResult {
    Failure(q, SourceUnavailable, I64_MAX)
      .(scan := if q.scan.Some? then Some(Evidence(q.scan.value, Some(SOURCE_BYTES), Some(I64_MAX), Some(I64_MAX)))
                else None)
  }

  /** What the wire library accepts as scan evidence of a query: same mode, bounded source and times. */
  predicate EvidenceMatches(q: Query, r: QueryResult) {
    match r.scan
    case None => q.scan.None?
    case Some(e) =>
      && q.scan == Some(e.mode)
      && (e.source.Some? ==> e.source.value <= SOURCE_BYTES)
      && (e.started.Some? ==> e.started.value <= I64_MAX)
      && (e.finished.Some? ==> e.finished.value <= I64_MAX)
  }

  function TruncatedOf(q: Query, r: QueryResult): QueryResult {
    var f := Failure(q, Truncated, r.at);
    if EvidenceMatches(q, r) then f.(scan := r.scan) else f
  }

  function DiagnosticLimit(plan: Plan): nat {
    CONTROL + |plan.queries| * SLACK
  }

  function Timeouts(queries: seq<Query>, at: int): seq<QueryResult> {
    seq(|queries|, i requires 0 <= i < |queries| => Failure(queries[i], Timeout, at))
  }

  function Reserves(queries: seq<Query>): seq<QueryResult> {
    seq(|queries|, i requires 0 <= i < |queries| => FailureReserve(queries[i]))
  }

  /** Accepted before any work starts: every query's failure evidence fits, alone and together. */
  predicate Preflight(plan: Plan) {
    && ResultBytes(plan, Reserves(plan.queries), I64_MAX) + DiagnosticLimit(plan) <= plan.outputBytes
    && forall i {:trigger FailureReserve(plan.queries[i])} :: 0 <= i < |plan.queries| ==>
        EntryBytes(FailureReserve(plan.queries[i])) <= plan.queries[i].outputBytes
  }

  /** A truncated entry never exceeds what was reserved for it, whatever it was made from. */
  lemma TruncatedFits(q: Query, r: QueryResult)
    requires 0 <= r.at <= I64_MAX
    ensures EntryBytes(TruncatedOf(q, r)) <= EntryBytes(FailureReserve(q))
  {
    TimeDigits(r.at);
    ReserveBytes(q);
    if EvidenceMatches(q, r) && r.scan.Some? {
      if r.scan.value.started.Some? { TimeDigits(r.scan.value.started.value); }
      if r.scan.value.finished.Some? { TimeDigits(r.scan.value.finished.value); }
    }
  }

  lemma ReserveBytes(q: Query)
    ensures EntryBytes(FailureReserve(q))
            == ENTRY_FIXED + 19 + 17 + 5 + (if q.scan.Some? then q.scan.value + SOURCE_BYTES + 38 else NULL_BYTES)
  {
    TimeDigits(I64_MAX);
  }

  lemma FailureFits(q: Query, status: Status, at: int)
    requires 0 <= at <= I64_MAX && StatusBytes(status) <= 17
    ensures EntryBytes(Failure(q, status, at)) <= EntryBytes(FailureReserve(q))
  {
    TimeDigits(at);
    ReserveBytes(q);
  }

  // ------------------------------------------------------------- collection

  /** One clock reading per use in an iteration, and whether an answer that is complete still holds then. */
  datatype Tick = Tick(expired: bool, time: nat, checked: nat, fresh_: bool, done: nat)

  datatype Reply = Failed | Reply(value: QueryResult, spent: nat)

  /** A provider of native bytes: what it answers query `k` when lent `allowance` bytes. */
  type Provider = (nat, nat) -> Reply

  ghost predicate WithinAllowance(provider: Provider) {
    forall k, allowance :: provider(k, allowance).Reply? ==> provider(k, allowance).spent <= allowance
  }

  predicate TickOk(t: Tick) {
    t.time <= I64_MAX && t.checked <= I64_MAX && t.done <= I64_MAX
  }

  predicate TicksOk(ticks: seq<Tick>) {
    forall i :: 0 <= i < |ticks| ==> TickOk(ticks[i])
  }

  /** The value as the worker corrects it: wrong identity or time, stale completeness, own budget. */
  function Corrected(q: Query, v: QueryResult, t: Tick): QueryResult {
    var valid := if v.digest != q.digest || v.at < 1 || v.at > t.checked then Failure(q, Invalid, t.time) else v;
    var whole := valid.complete && t.fresh_;
    var honest := if valid.status == Complete && !whole then valid.(status := Invalid, complete := false) else valid;
    if EntryBytes(honest) > q.outputBytes then TruncatedOf(q, honest) else honest
  }

  lemma CorrectedTime(q: Query, v: QueryResult, t: Tick)
    requires TickOk(t)
    ensures 0 <= Corrected(q, v, t).at <= I64_MAX
    ensures v == Failure(q, Truncated, t.time) ==>
              Corrected(q, v, t) == Failure(q, Corrected(q, v, t).status, Corrected(q, v, t).at)
  {
  }

  /** The reserve measured before query `k` runs: accepted entries, then worst failures. */
  function ReserveFrom(queries: seq<Query>, entries: seq<QueryResult>, k: nat): seq<QueryResult>
    requires |queries| == |entries| && k <= |entries|
  {
    entries[..k] + Reserves(queries)[k..]
  }

  function Allowance(plan: Plan, entries: seq<QueryResult>, k: nat, at: nat, observed: nat): nat
    requires |plan.queries| == |entries| && k <= |entries|
  {
    var used := ResultBytes(plan, ReserveFrom(plan.queries, entries, k), at) + DiagnosticLimit(plan) + observed;
    if used > plan.outputBytes then 0 else plan.outputBytes - used
  }

  /** The size with the widest collection time, so that clock progress never grows it. */
  function Wide(plan: Plan, entries: seq<QueryResult>): nat
    requires |plan.queries| == |entries|
  {
    RESULT_FIXED + 19 + Entries(plan.queries, entries)
  }

  /**
   The running bound: each query already passed may have outgrown its timeout, and one whose
   digest came before also by scan evidence from the cache.
   */
  ghost predicate Within(plan: Plan, entries: seq<QueryResult>, observed: nat, k: nat) {
    && |plan.queries| == |entries| && k <= |entries|
    && Wide(plan, entries) + observed + DiagnosticLimit(plan)
       <= plan.outputBytes + GROWTH * k + EVIDENCE * Repeats(plan.queries, k)
  }

  lemma WideBound(plan: Plan, entries: seq<QueryResult>, at: nat)
    requires |plan.queries| == |entries| && at <= I64_MAX
    ensures ResultBytes(plan, entries, at) <= Wide(plan, entries) <= ResultBytes(plan, entries, at) + 18
  {
    TimeDigits(at);
  }

  /** Entries from `k` on are still the timeouts they started as. */
  ghost predicate Pending(queries: seq<Query>, entries: seq<QueryResult>, k: nat, start: nat) {
    |queries| == |entries| && forall i :: k <= i < |entries| ==> entries[i] == Failure(queries[i], Timeout, start)
  }

  /** The digests of the first `k` queries. */
  function SeenDigests(queries: seq<Query>, k: nat): set<nat>
    requires k <= |queries|
  {
    if k == 0 then {} else SeenDigests(queries, k - 1) + {queries[k - 1].digest}
  }

  /** A query that cannot be answered from the cache, or whose answer carries no scan evidence. */
  predicate Fresh(queries: seq<Query>, k: nat)
    requires k < |queries|
  {
    queries[k].scan.None? || queries[k].digest !in SeenDigests(queries, k)
  }

  /** How many of the first `k` queries repeat a digest and carry scan evidence. */
  function Repeats(queries: seq<Query>, k: nat): nat
    requires k <= |queries|
  {
    if k == 0 then 0 else Repeats(queries, k - 1) + if Fresh(queries, k - 1) then 0 else 1
  }

  /** What repeated evidence can take in all stays below what the slack grants in all. */
  predicate FewRepeats(queries: seq<Query>) {
    GROWTH * |queries| + EVIDENCE * Repeats(queries, |queries|) <= SLACK * |queries|
  }

  /** Nothing is beyond the budget but the digits of the time. */
  ghost predicate Covered(plan: Plan, entries: seq<QueryResult>, observed: nat) {
    |plan.queries| == |entries| && Wide(plan, entries) + observed + DiagnosticLimit(plan) <= plan.outputBytes + 18
  }

  /** A rejected value inside the lent allowance: its truncated entry was reserved. */
  lemma LentFits(plan: Plan, entries: seq<QueryResult>, k: nat, start: nat, at: nat, observed: nat, spent: nat,
                 v: QueryResult)
    requires Pending(plan.queries, entries, k, start) && k < |entries| && start <= I64_MAX && at <= I64_MAX
    requires 0 < Allowance(plan, entries, k, at, observed) && spent <= Allowance(plan, entries, k, at, observed)
    requires 0 <= v.at <= I64_MAX
    ensures Covered(plan, entries[k := TruncatedOf(plan.queries[k], v)], observed + spent)
  {
    var next := entries[k := TruncatedOf(plan.queries[k], v)];
    var reserve := ReserveFrom(plan.queries, entries, k);
    forall i | 0 <= i < |next|
      ensures EntryBytes(next[i]) <= EntryBytes(reserve[i])
    {
      if i == k {
        TruncatedFits(plan.queries[k], v);
      } else if i > k {
        FailureFits(plan.queries[i], Timeout, start);
      }
    }
    EntriesBelow(plan.queries, next, reserve);
    WideBound(plan, reserve, at);
  }

  /** A truncated entry outgrows its timeout by the digits of its time, its status and the evidence it keeps. */
  lemma SkipFits(q: Query, v: QueryResult, start: nat)
    requires 0 <= v.at <= I64_MAX
    ensures EntryBytes(TruncatedOf(q, v)) <= EntryBytes(Failure(q, Timeout, start)) + GROWTH + EVIDENCE
    ensures q.scan.None? || v == Failure(q, v.status, v.at) ==>
              EntryBytes(TruncatedOf(q, v)) <= EntryBytes(Failure(q, Timeout, start)) + GROWTH
  {
    TimeDigits(v.at);
    if EvidenceMatches(q, v) && v.scan.Some? {
      if v.scan.value.started.Some? { TimeDigits(v.scan.value.started.value); }
      if v.scan.value.finished.Some? { TimeDigits(v.scan.value.finished.value); }
    }
  }

  lemma AcceptedFits(plan: Plan, entries: seq<QueryResult>, at: nat, observed: nat)
    requires |plan.queries| == |entries| && at <= I64_MAX
    requires ResultBytes(plan, entries, at) + observed + DiagnosticLimit(plan) <= plan.outputBytes
    ensures Covered(plan, entries, observed)
  {
    WideBound(plan, entries, at);
  }

  lemma PreflightFits(plan: Plan, start: nat)
    requires Preflight(plan) && start <= I64_MAX
    ensures Within(plan, Timeouts(plan.queries, start), 0, 0)
        && Pending(plan.queries, Timeouts(plan.queries, start), 0, start)
    ensures Rows(Timeouts(plan.queries, start)) == 0
  {
    forall i | 0 <= i < |plan.queries|
      ensures EntryBytes(Timeouts(plan.queries, start)[i]) <= EntryBytes(Reserves(plan.queries)[i])
    {
      FailureFits(plan.queries[i], Timeout, start);
    }
    EntriesBelow(plan.queries, Timeouts(plan.queries, start), Reserves(plan.queries));
    TimeDigits(I64_MAX);
    WideBound(plan, Reserves(plan.queries), I64_MAX);
    NoRows(Timeouts(plan.queries, start));
  }

  lemma {:induction false} NoRows(entries: seq<QueryResult>)
    requires forall i :: 0 <= i < |entries| ==> entries[i].rows == []
    ensures Rows(entries) == 0
  {
    if entries != [] {
      NoRows(entries[1..]);
    }
  }

  /** Whether a value is refused, decided with the pending timeouts still in place. */
  predicate Rejected(plan: Plan, entries: seq<QueryResult>, at: nat, observed: nat)
    requires |plan.queries| == |entries|
  {
    Rows(entries) > plan.maxRows || ResultBytes(plan, entries, at) + observed + DiagnosticLimit(plan) > plan.outputBytes
  }

  /** The entries after query `k`: its value if accepted, its truncation otherwise. */
  function Settled(plan: Plan, entries: seq<QueryResult>, k: nat, value: QueryResult, at: nat,
                   observed: nat): seq<QueryResult>
    requires |plan.queries| == |entries| && k < |entries|
  {
    if Rejected(plan, entries[k := value], at, observed) then entries[k := TruncatedOf(plan.queries[k], value)]
    else entries[k := value]
  }

  /** One iteration keeps the running bound, whichever way the query went. */
  lemma SettledWithin(plan: Plan, entries: seq<QueryResult>, k: nat, start: nat, at: nat, done: nat,
                      observed: nat, spent: nat, ran: bool, value: QueryResult)
    requires Within(plan, entries, observed, k) && Pending(plan.queries, entries, k, start) && k < |entries|
    requires start <= I64_MAX && at <= I64_MAX && done <= I64_MAX && 0 <= value.at <= I64_MAX
    requires ran ==> 0 < Allowance(plan, entries, k, at, observed) && spent <= Allowance(plan, entries, k, at, observed)
    requires !ran ==> spent == 0
    requires !ran && plan.queries[k].digest !in SeenDigests(plan.queries, k) ==>
               value == Failure(plan.queries[k], value.status, value.at)
    ensures Within(plan, Settled(plan, entries, k, value, done, observed + spent), observed + spent, k + 1)
  {
    var q := plan.queries[k];
    if ResultBytes(plan, entries[k := value], done) + observed + spent + DiagnosticLimit(plan) <= plan.outputBytes
       && !Rejected(plan, entries[k := value], done, observed + spent) {
      AcceptedFits(plan, entries[k := value], done, observed + spent);
    } else if ran {
      LentFits(plan, entries, k, start, at, observed, spent, value);
    } else {
      SkipFits(q, value, start);
      EntriesUpdate(plan.queries, entries, k, TruncatedOf(q, value));
    }
  }

  lemma {:induction false} SettledRows(plan: Plan, entries: seq<QueryResult>, k: nat, start: nat,
                                       value: QueryResult, at: nat, observed: nat)
    requires Pending(plan.queries, entries, k, start) && k < |entries| && Rows(entries) <= plan.maxRows
    ensures Rows(Settled(plan, entries, k, value, at, observed)) <= plan.maxRows
  {
    RowsUpdate(entries, k, TruncatedOf(plan.queries[k], value));
  }

  datatype Outcome = Refused | ProviderFailed | Collected(entries: seq<QueryResult>, observed: nat)

  ghost predicate InBudget(plan: Plan, r: Outcome)
    requires r.Collected?
  {
    && |r.entries| == |plan.queries|
    && forall at: nat :: at <= I64_MAX ==> ResultBytes(plan, r.entries, at) + r.observed + CONTROL <= plan.outputBytes
  }

  lemma WithinBudget(plan: Plan, entries: seq<QueryResult>, observed: nat, k: nat)
    requires Within(plan, entries, observed, k) && k <= |plan.queries| && FewRepeats(plan.queries)
    ensures InBudget(plan, Collected(entries, observed))
  {
    RepeatsRise(plan.queries, k);
    forall at: nat | at <= I64_MAX
      ensures ResultBytes(plan, entries, at) + observed + CONTROL <= plan.outputBytes
    {
      WideBound(plan, entries, at);
    }
  }

  lemma {:induction false} RepeatsRise(queries: seq<Query>, k: nat)
    requires k <= |queries|
    ensures Repeats(queries, k) <= Repeats(queries, |queries|)
    decreases |queries| - k
  {
    if k < |queries| {
      RepeatsRise(queries, k + 1);
    }
  }

  predicate Distinct(xs: seq<nat>) {
    forall i, j :: 0 <= i < j < |xs| ==> xs[i] != xs[j]
  }

  /** Distinct digests, all of them among `seen`. */
  ghost predicate Ran(calls: seq<nat>, seen: set<nat>) {
    Distinct(calls) && forall d :: d in calls ==> d in seen
  }

  lemma RanMore(calls: seq<nat>, seen: set<nat>, d: nat)
    requires Ran(calls, seen)
    ensures Ran(calls, seen + {d})
    ensures d !in seen ==> Ran(calls + [d], seen + {d})
  {
    if d !in seen {
      assert forall i :: 0 <= i < |calls| ==> calls[i] in calls;
    }
  }

  /** What query `k` is answered with before correction. */
  datatype Answer = Answer(value: QueryResult, spent: nat, ran: bool, failed: bool)

  /** From the cache, as truncated when nothing is left to lend, or by its provider. */
  function AnswerOf(plan: Plan, c: Course, k: nat, time: nat, provider: Provider): (a: Answer)
    requires |plan.queries| == |c.entries| && k < |c.entries|
    ensures a.ran ==> plan.queries[k].digest !in c.cache && 0 < Allowance(plan, c.entries, k, c.at, c.observed)
    ensures a.ran && !a.failed && WithinAllowance(provider) ==>
        a.spent <= Allowance(plan, c.entries, k, c.at, c.observed)
    ensures !a.ran ==> a.spent == 0 && !a.failed
    ensures !a.ran && plan.queries[k].digest !in c.cache ==> a.value == Failure(plan.queries[k], Truncated, time)
  {
    var q := plan.queries[k];
    var allowance := Allowance(plan, c.entries, k, c.at, c.observed);
    if q.digest in c.cache then Answer(c.cache[q.digest], 0, false, false)
    else if allowance == 0 then Answer(Failure(q, Truncated, time), 0, false, false)
    else match provider(k, allowance)
      case Failed => Answer(Failure(q, Truncated, time), 0, true, true)
      case Reply(value, spent) => Answer(value, spent, true, false)
  }

  /** How far a collection has come; `calls` lists the digests whose provider ran. */
  datatype Course = Course(entries: seq<QueryResult>, cache: map<nat, QueryResult>, observed: nat, at: nat,
                           calls: seq<nat>, failed: bool)

  /** One turn: ask, correct, accept or truncate, remember what was accepted. */
  function Turn(plan: Plan, c: Course, k: nat, t: Tick, provider: Provider): Course
    requires |plan.queries| == |c.entries| && k < |c.entries|
  {
    var q := plan.queries[k];
    var a := AnswerOf(plan, c, k, t.time, provider);
    var calls := if a.ran then c.calls + [q.digest] else c.calls;
    if a.failed then c.(calls := calls, failed := true)
    else
      var next := Settled(plan, c.entries, k, Corrected(q, a.value, t), t.done, c.observed + a.spent);
      Course(next, c.cache[q.digest := next[k]], c.observed + a.spent, t.done, calls, false)
  }

  /** The turns from query `k` on, until one provider fails or time is up. */
  function Turns(plan: Plan, c: Course, k: nat, ticks: seq<Tick>, provider: Provider): Course
    requires |plan.queries| == |c.entries| == |ticks| && k <= |ticks|
    decreases |ticks| - k
  {
    if k == |ticks| || c.failed || ticks[k].expired then c
    else Turns(plan, Turn(plan, c, k, ticks[k], provider), k + 1, ticks, provider)
  }

  function Opening(plan: Plan, start: nat): Course {
    Course(Timeouts(plan.queries, start), map[], 0, start, [], false)
  }

  /** What every turn keeps, for every provider; `sound` adds the running bound. */
  ghost predicate CourseOk(plan: Plan, c: Course, k: nat, start: nat, sound: bool)
    requires k <= |plan.queries|
  {
    && c.at <= I64_MAX
    && Pending(plan.queries, c.entries, k, start)
    && Rows(c.entries) <= plan.maxRows
    && c.cache.Keys == SeenDigests(plan.queries, k)
    && Ran(c.calls, c.cache.Keys)
    && (sound ==> Within(plan, c.entries, c.observed, k))
  }

  lemma {:induction false} SettledKeeps(plan: Plan, c: Course, k: nat, start: nat, t: Tick, provider: Provider)
    requires k < |plan.queries| && Pending(plan.queries, c.entries, k, start) && Rows(c.entries) <= plan.maxRows
    requires start <= I64_MAX && c.at <= I64_MAX && TickOk(t)
    requires !AnswerOf(plan, c, k, t.time, provider).failed
    ensures var a := AnswerOf(plan, c, k, t.time, provider);
            var next := Settled(plan, c.entries, k, Corrected(plan.queries[k], a.value, t), t.done,
                c.observed + a.spent);
            Pending(plan.queries, next, k + 1, start) && Rows(next) <= plan.maxRows
  {
    var a := AnswerOf(plan, c, k, t.time, provider);
    SettledRows(plan, c.entries, k, start, Corrected(plan.queries[k], a.value, t), t.done, c.observed + a.spent);
  }

  lemma {:induction false} SettledBound(plan: Plan, c: Course, k: nat, start: nat, t: Tick, provider: Provider)
    requires k < |plan.queries| && Pending(plan.queries, c.entries, k, start) && WithinAllowance(provider)
    requires start <= I64_MAX && c.at <= I64_MAX && TickOk(t) && c.cache.Keys == SeenDigests(plan.queries, k)
    requires !AnswerOf(plan, c, k, t.time, provider).failed && Within(plan, c.entries, c.observed, k)
    ensures var a := AnswerOf(plan, c, k, t.time, provider);
            var next := Settled(plan, c.entries, k, Corrected(plan.queries[k], a.value, t), t.done,
                c.observed + a.spent);
            Within(plan, next, c.observed + a.spent, k + 1)
  {
    var a := AnswerOf(plan, c, k, t.time, provider);
    var value := Corrected(plan.queries[k], a.value, t);
    CorrectedTime(plan.queries[k], a.value, t);
    SettledWithin(plan, c.entries, k, start, c.at, t.done, c.observed, a.spent, a.ran, value);
  }

  lemma {:induction false} TurnKeeps(plan: Plan, c: Course, k: nat, start: nat, t: Tick, provider: Provider)
    requires k < |plan.queries| && start <= I64_MAX && TickOk(t) && !c.failed
    requires CourseOk(plan, c, k, start, WithinAllowance(provider))
    ensures var next := Turn(plan, c, k, t, provider);
            if next.failed then Distinct(next.calls)
            else CourseOk(plan, next, k + 1, start, WithinAllowance(provider))
  {
    var digest := plan.queries[k].digest;
    RanMore(c.calls, c.cache.Keys, digest);
    var next := Turn(plan, c, k, t, provider);
    if !next.failed {
      SettledKeeps(plan, c, k, start, t, provider);
      if WithinAllowance(provider) {
        SettledBound(plan, c, k, start, t, provider);
      }
      assert next.cache.Keys == c.cache.Keys + {digest};
    }
  }

  lemma OpeningOk(plan: Plan, start: nat, sound: bool)
    requires Preflight(plan) && start <= I64_MAX
    ensures CourseOk(plan, Opening(plan, start), 0, start, sound)
  {
    PreflightFits(plan, start);
  }

  /** What a finished collection promises, whatever the providers and the clock did. */
  ghost predicate Sound(plan: Plan, c: Course, provider: Provider)
  {
    && Distinct(c.calls)
    && (!c.failed ==> |c.entries| == |plan.queries| && Rows(c.entries) <= plan.maxRows)
    && (!c.failed && WithinAllowance(provider) && FewRepeats(plan.queries) ==>
        InBudget(plan, Collected(c.entries, c.observed)))
  }

  lemma StopsSound(plan: Plan, c: Course, k: nat, start: nat, provider: Provider)
    requires k <= |plan.queries| && !c.failed && CourseOk(plan, c, k, start, WithinAllowance(provider))
    ensures Sound(plan, c, provider)
  {
    if WithinAllowance(provider) && FewRepeats(plan.queries) {
      WithinBudget(plan, c.entries, c.observed, k);
    }
  }

  lemma {:induction false} TurnsSound(plan: Plan, c: Course, k: nat, start: nat, ticks: seq<Tick>, provider: Provider)
    requires |ticks| == |plan.queries| && k <= |ticks| && start <= I64_MAX && TicksOk(ticks) && !c.failed
    requires CourseOk(plan, c, k, start, WithinAllowance(provider))
    ensures Sound(plan, Turns(plan, c, k, ticks, provider), provider)
    decreases |ticks| - k
  {
    if k == |ticks| || ticks[k].expired {
      StopsSound(plan, c, k, start, provider);
    } else {
      TurnKeeps(plan, c, k, start, ticks[k], provider);
      var next := Turn(plan, c, k, ticks[k], provider);
      if !next.failed {
        TurnsSound(plan, next, k + 1, start, ticks, provider);
      }
    }
  }

  /**
   Every accepted plan: one entry a query, never too many rows, at most one provider run a
   digest, and a result inside the budget unless too many of the queries repeat a digest that
   carries scan evidence.
   */
  lemma CollectionSound(plan: Plan, start: nat, ticks: seq<Tick>, provider: Provider)
    requires Preflight(plan) && start <= I64_MAX && |ticks| == |plan.queries| && TicksOk(ticks)
    ensures Sound(plan, Turns(plan, Opening(plan, start), 0, ticks, provider), provider)
  {
    OpeningOk(plan, start, WithinAllowance(provider));
    TurnsSound(plan, Opening(plan, start), 0, start, ticks, provider);
  }

  /** The entries once query `k` was accepted or truncated. */
  method Settle(plan: Plan, entries: seq<QueryResult>, k: nat, value: QueryResult, at: nat, observed: nat)
    returns (next: seq<QueryResult>)
    requires |plan.queries| == |entries| && k < |entries|
    ensures next == Settled(plan, entries, k, value, at, observed)
  {
    next := entries[k := value];
    if Rejected(plan, next, at, observed) {
      next := entries[k := TruncatedOf(plan.queries[k], value)];
    }
  }

  /** The body of the worker's loop. */
  method TakeTurn(plan: Plan, c: Course, k: nat, t: Tick, provider: Provider) returns (next: Course)
    requires |plan.queries| == |c.entries| && k < |c.entries|
    ensures next == Turn(plan, c, k, t, provider)
  {
    var q := plan.queries[k];
    var answer := AnswerOf(plan, c, k, t.time, provider);
    var calls := c.calls;
    if answer.ran {
      calls := calls + [q.digest];
    }
    if answer.failed {
      return c.(calls := calls, failed := true);
    }
    var observed := c.observed + answer.spent;
    var entries := Settle(plan, c.entries, k, Corrected(q, answer.value, t), t.done, observed);
    next := Course(entries, c.cache[q.digest := entries[k]], observed, t.done, calls, false);
  }

  /** The worker: refuse a plan whose failures do not fit, then take the queries in order. */
  method Collect(plan: Plan, start: nat, ticks: seq<Tick>, provider: Provider) returns (r: Outcome, calls: seq<nat>)
    requires start <= I64_MAX && |ticks| == |plan.queries| && TicksOk(ticks)
    ensures r.Refused? <==> !Preflight(plan)
    ensures r.Refused? ==> calls == []
    ensures !r.Refused? ==>
              var c := Turns(plan, Opening(plan, start), 0, ticks, provider);
              calls == c.calls && r == if c.failed then ProviderFailed else Collected(c.entries, c.observed)
  {
    if !Preflight(plan) {
      return Refused, [];
    }
    var c := Opening(plan, start);
    var k := 0;
    while k < |ticks| && !c.failed && !ticks[k].expired
      invariant k <= |ticks| == |c.entries|
      invariant Turns(plan, c, k, ticks, provider) == Turns(plan, Opening(plan, start), 0, ticks, provider)
      decreases |ticks| - k
    {
      c := TakeTurn(plan, c, k, ticks[k], provider);
      k := k + 1;
    }
    r := if c.failed then ProviderFailed else Collected(c.entries, c.observed);
    calls := c.calls;
  }

  // --------------------------------------------- where the slack is not enough

  /**
   A skipped query fits its share of the slack, whatever was cached for it, exactly when it carries
   no scan evidence.
   */
  lemma SlackCoversExactly(q: Query, start: nat)
    requires start <= I64_MAX
    ensures (forall v: QueryResult :: 0 <= v.at <= I64_MAX ==>
                                        EntryBytes(TruncatedOf(q, v)) <= EntryBytes(Failure(q, Timeout, start)) + SLACK)
            <==> q.scan.None?
  {
    if q.scan.None? {
      forall v: QueryResult | 0 <= v.at <= I64_MAX
        ensures EntryBytes(TruncatedOf(q, v)) <= EntryBytes(Failure(q, Timeout, start)) + SLACK
      {
        SkipFits(q, v, start);
      }
    } else {
      var widest := Some(Evidence(q.scan.value, Some(SOURCE_BYTES), Some(I64_MAX), Some(I64_MAX)));
      var v := Failure(q, Complete, I64_MAX).(scan := widest);
      TimeDigits(start);
      TimeDigits(I64_MAX);
      assert EntryBytes(TruncatedOf(q, v)) > EntryBytes(Failure(q, Timeout, start)) + SLACK;
    }
  }
}
