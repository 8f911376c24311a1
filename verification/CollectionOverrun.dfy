/**
 Where the output budget of a collection does not hold: plans that list one scan query several
 times. The first answer may use the room reserved for the later ones, which are then answered
 from the cache and keep its evidence, so that the result outgrows the budget. For such plans it
 is decided exactly, from the plan and the clock's digits alone, whether any provider can do it.
 */
module CollectionOverrun {
  import opened CollectionBudget

  /** One query with scan evidence, listed under any number of names. */
  predicate OneScan(plan: Plan) {
    && plan.queries != [] && plan.queries[0].scan.Some?
    && forall i {:trigger plan.queries[i].key} :: 0 <= i < |plan.queries| ==>
        plan.queries[i] == plan.queries[0].(key := plan.queries[i].key)
  }

  // ---------------------------------------------------------------- the clock

  /**
   A collection begins at `start`; every reading of the clock in it has at least `shortest` and at
   most `longest` digits, and no evidence names a time after `latest`.
   */
  datatype Times = Times(start: nat, shortest: nat, longest: nat, latest: nat)

  predicate Sane(t: Times) {
    t.start <= I64_MAX && t.latest <= I64_MAX && t.shortest <= Digits(t.start) <= t.longest <= 19
  }

  /** The clock as it is: its readings have as many digits as the first one. */
  function Steady(start: nat, latest: nat): Times {
    Times(start, Digits(start), Digits(start), latest)
  }

  /** Any clock and any evidence. */
  function Anyhow(start: nat): Times {
    Times(start, 1, 19, I64_MAX)
  }

  predicate Reading(t: Times, time: nat) {
    time <= I64_MAX && t.shortest <= Digits(time) <= t.longest
  }

  predicate TickReads(t: Times, k: Tick) {
    Reading(t, k.time) && Reading(t, k.checked) && Reading(t, k.done)
  }

  predicate TicksRead(t: Times, ticks: seq<Tick>) {
    forall k {:trigger TickReads(t, ticks[k])} :: 0 <= k < |ticks| ==> TickReads(t, ticks[k])
  }

  predicate Dated(t: Times, e: Option<Evidence>) {
    e.Some? ==> (e.value.started.Some? ==> e.value.started.value <= t.latest)
                && (e.value.finished.Some? ==> e.value.finished.value <= t.latest)
  }

  ghost predicate Dates(t: Times, provider: Provider) {
    forall k, allowance :: provider(k, allowance).Reply? ==> Dated(t, provider(k, allowance).value.scan)
  }

  /** This provider, lent no more than it spends, takes the result of this collection beyond its budget. */
  ghost predicate Overruns(plan: Plan, t: Times, ticks: seq<Tick>, provider: Provider, at: nat) {
    && |ticks| == |plan.queries| && TicksRead(t, ticks) && Reading(t, at)
    && WithinAllowance(provider) && Dates(t, provider)
    && var c := Turns(plan, Opening(plan, t.start), 0, ticks, provider);
       !c.failed && |c.entries| == |plan.queries|
       && ResultBytes(plan, c.entries, at) + c.observed + CONTROL > plan.outputBytes
  }

  ghost predicate CanOverrun(plan: Plan, t: Times) {
    exists ticks: seq<Tick>, provider: Provider, at: nat :: Overruns(plan, t, ticks, provider, at)
  }

  // ------------------------------------------------------------- the condition

  /** Bytes beyond the point at which a value is refused, with the time at its longest. */
  function Pressure(plan: Plan, t: Times, entries: seq<QueryResult>, observed: nat): int
    requires |plan.queries| == |entries|
  {
    RESULT_FIXED + t.longest + Entries(plan.queries, entries) + observed + DiagnosticLimit(plan) - plan.outputBytes
  }

  /** The bytes of a time in evidence; where there is none, its absence is shown. */
  function TimeWidth(time: nat): nat {
    if Digits(time) < NULL_BYTES then NULL_BYTES else Digits(time)
  }

  /** What an entry with evidence adds to its timeout once it is truncated, at most. */
  function Grow(t: Times): int {
    247 + 2 * TimeWidth(t.latest) + t.longest - Digits(t.start)
  }

  /** How far a query's reserve exceeds its timeout. */
  function Gap(start: nat): int {
    312 - Digits(start)
  }

  /** What a query may use beyond its reserve. */
  function Spare(q: Query): int {
    q.outputBytes - EntryBytes(FailureReserve(q))
  }

  /** What the first provider is lent. */
  function Lent(plan: Plan, start: nat): nat {
    Allowance(plan, Timeouts(plan.queries, start), 0, start, 0)
  }

  function Base(plan: Plan, t: Times): int {
    Pressure(plan, t, Timeouts(plan.queries, t.start), 0)
  }

  /** How far below the point of refusal `j` answers of the size of the reserve leave the result. */
  function Room(plan: Plan, t: Times, j: nat): int {
    t.longest - t.shortest - Base(plan, t) - j * Gap(t.start)
  }

  function Min(a: int, b: int): int {
    if a < b then a else b
  }

  /** The most that fits into the room: `j` times as much beyond the reserve as possible, then native bytes. */
  function Most(room: int, spare: int, lent: int, j: nat): int
    requires j > 0
  {
    var beyond := Min(spare, room / j);
    j * beyond + Min(lent, room - j * beyond)
  }

  /** The highest pressure with the answer taken `j` times. */
  function Fullest(plan: Plan, t: Times, j: nat): int
    requires plan.queries != [] && j > 0
  {
    Base(plan, t) + j * Gap(t.start) + Most(Room(plan, t, j), Spare(plan.queries[0]), Lent(plan, t.start), j)
  }

  /** With the answer taken `j` times and truncated afterwards, the rest outgrows the slack. */
  predicate Overfills(plan: Plan, t: Times, j: nat)
    requires plan.queries != []
  {
    1 <= j < |plan.queries| && Fullest(plan, t, j) + (|plan.queries| - j) * Grow(t) > SLACK * |plan.queries|
  }

  predicate CanOverfill(plan: Plan, t: Times)
    requires plan.queries != []
  {
    0 < Lent(plan, t.start) && exists j: nat | j < |plan.queries| :: Overfills(plan, t, j)
  }

  // ------------------------------------------------------------- sizes

  lemma Sizes(q: Query, start: nat)
    requires q.scan.Some? && start <= I64_MAX
    ensures EntryBytes(FailureReserve(q)) == q.scan.value + 496
    ensures EntryBytes(Failure(q, Timeout, start)) == q.scan.value + 184 + Digits(start)
    ensures 1 <= Digits(start) <= 19
  {
    ReserveBytes(q);
    TimeDigits(start);
  }

  lemma {:induction false} DigitsRise(a: nat, b: nat)
    requires a <= b
    ensures Digits(a) <= Digits(b)
  {
    if b >= 10 && a >= 10 {
      DigitsRise(a / 10, b / 10);
    }
  }

  lemma PressureUpdate(plan: Plan, t: Times, entries: seq<QueryResult>, k: nat, v: QueryResult, observed: nat,
                       spent: nat)
    requires |plan.queries| == |entries| && k < |entries|
    ensures Pressure(plan, t, entries[k := v], observed + spent)
         == Pressure(plan, t, entries, observed) - EntryBytes(entries[k]) + EntryBytes(v) + spent
  {
    EntriesUpdate(plan.queries, entries, k, v);
  }

  /** `j` times `x`, counted up. */
  function Mul(j: nat, x: int): int {
    if j == 0 then 0 else Mul(j - 1, x) + x
  }

  lemma {:induction false} MulIs(j: nat, x: int)
    ensures Mul(j, x) == j * x
  {
    if j > 0 {
      MulIs(j - 1, x);
    }
  }

  lemma {:induction false} MulRises(j: nat, k: nat, x: int)
    requires j <= k && 0 <= x
    ensures Mul(j, x) <= Mul(k, x)
    decreases k
  {
    if j < k {
      MulRises(j, k - 1, x);
    }
  }

  lemma {:induction false} ReservesTogether(queries: seq<Query>, start: nat)
    requires start <= I64_MAX && forall i :: 0 <= i < |queries| ==> queries[i].scan.Some?
    ensures Entries(queries, Reserves(queries))
        == Entries(queries, Timeouts(queries, start)) + Mul(|queries|, Gap(start))
  {
    if queries != [] {
      Sizes(queries[0], start);
      ReservesTogether(queries[1..], start);
      assert Reserves(queries)[1..] == Reserves(queries[1..]);
      assert Timeouts(queries, start)[1..] == Timeouts(queries[1..], start);
    }
  }

  /** Where the pressure begins, and what the first provider is lent. */
  lemma OpeningPressure(plan: Plan, t: Times)
    requires Preflight(plan) && OneScan(plan) && Sane(t)
    ensures var p := Base(plan, t) + Mul(|plan.queries|, Gap(t.start));
            p <= t.longest - 19
            && Lent(plan, t.start) == (if p < t.longest - Digits(t.start) then t.longest - Digits(t.start) - p else 0)
    ensures 0 <= Spare(plan.queries[0])
  {
    ReservesTogether(plan.queries, t.start);
    TimeDigits(I64_MAX);
    TimeDigits(t.start);
    var start := Timeouts(plan.queries, t.start);
    assert ReserveFrom(plan.queries, start, 0) == Reserves(plan.queries);
  }

  // ------------------------------------------------------------- what fits

  /** No sum of native bytes and equal answers within the room is above the most. */
  lemma MostIs(room: int, spare: int, lent: int, j: nat, spent: int, beyond: int)
    requires 1 <= j && 0 <= room && 0 <= spare && 0 <= spent <= lent && beyond <= spare && spent + j * beyond <= room
    ensures spent + j * beyond <= Most(room, spare, lent, j)
  {
    var b := Min(spare, room / j);
    assert room == j * (room / j) + room % j;
    NotLarger(j, b, room / j);
    if beyond < b {
      Below(j, beyond, b);
    } else if beyond > b {
      Below(j, b, beyond);
    }
  }

  lemma NotLarger(j: int, a: int, b: int)
    requires 0 <= j && a <= b
    ensures j * a <= j * b
  {
  }

  lemma Below(j: int, a: int, b: int)
    requires 1 <= j && a < b
    ensures j * a + j <= j * b
  {
    NotLarger(j, a + 1, b);
    assert j * (a + 1) == j * a + j;
  }

  /** The most is made of such a sum. */
  lemma MostFits(room: int, spare: int, lent: int, j: nat) returns (spent: nat, beyond: nat)
    requires 1 <= j && 0 <= room && 0 <= spare && 0 <= lent
    ensures spent <= lent && beyond <= spare && spent + j * beyond == Most(room, spare, lent, j) <= room
  {
    beyond := Min(spare, room / j);
    assert room == j * (room / j) + room % j;
    NotLarger(j, beyond, room / j);
    spent := Min(lent, room - j * beyond);
  }

  /** The pressure after `k` equal answers, each `beyond` bytes larger than its reserve. */
  function Taken(base: int, gap: int, spent: nat, beyond: int, k: nat): int {
    base + spent + Mul(k, beyond + gap)
  }

  lemma RoomIs(plan: Plan, t: Times, j: nat)
    requires Preflight(plan) && OneScan(plan) && Sane(t) && j <= |plan.queries|
    ensures 0 <= Room(plan, t, j)
  {
    OpeningPressure(plan, t);
    TimeDigits(t.start);
    MulIs(|plan.queries|, Gap(t.start));
    NotLarger(Gap(t.start), j, |plan.queries|);
  }

  /** What is taken below the point of refusal is at most the fullest. */
  lemma TakenBelow(plan: Plan, t: Times, spent: nat, beyond: int, j: nat)
    requires Preflight(plan) && OneScan(plan) && Sane(t) && 1 <= j <= |plan.queries|
    requires spent <= Lent(plan, t.start) && beyond <= Spare(plan.queries[0])
    requires Taken(Base(plan, t), Gap(t.start), spent, beyond, j) <= t.longest - t.shortest
    ensures Taken(Base(plan, t), Gap(t.start), spent, beyond, j) <= Fullest(plan, t, j)
  {
    OpeningPressure(plan, t);
    RoomIs(plan, t, j);
    MulIs(j, beyond + Gap(t.start));
    assert j * (beyond + Gap(t.start)) == j * beyond + j * Gap(t.start);
    MostIs(Room(plan, t, j), Spare(plan.queries[0]), Lent(plan, t.start), j, spent, beyond);
  }

  // ------------------------------------------------------------- what corrections leave

  function Small(q: Query, t: Times): int {
    EntryBytes(Failure(q, Timeout, t.start)) + Grow(t)
  }

  /** What any corrected value has: readable times, and no completeness without a complete enumeration. */
  predicate Held(t: Times, v: QueryResult) {
    0 <= v.at <= I64_MAX && Digits(v.at) <= t.longest && Dated(t, v.scan) && (v.status == Complete ==> v.complete)
  }

  lemma DatedBytes(t: Times, time: nat)
    requires time <= t.latest
    ensures Digits(time) <= TimeWidth(t.latest)
  {
    DigitsRise(time, t.latest);
  }

  lemma TruncatedSmall(q: Query, t: Times, v: QueryResult)
    requires q.scan.Some? && Sane(t) && 0 <= v.at <= I64_MAX && Digits(v.at) <= t.longest && Dated(t, v.scan)
    ensures EntryBytes(TruncatedOf(q, v)) <= Small(q, t) && Held(t, TruncatedOf(q, v))
  {
    Sizes(q, t.start);
    if EvidenceMatches(q, v) && v.scan.Some? {
      var e := v.scan.value;
      if e.started.Some? { DatedBytes(t, e.started.value); }
      if e.finished.Some? { DatedBytes(t, e.finished.value); }
    }
  }

  lemma FailureSmall(q: Query, t: Times, status: Status, time: nat)
    requires q.scan.Some? && Sane(t) && Reading(t, time) && StatusBytes(status) <= 9 && status != Complete
    ensures EntryBytes(Failure(q, status, time)) <= Small(q, t) && Held(t, Failure(q, status, time))
  {
    Sizes(q, t.start);
  }

  /** Correction keeps a value's size, makes it a small one, or cuts it to what its query may use. */
  lemma CorrectedBytes(q: Query, t: Times, v: QueryResult, k: Tick)
    requires q.scan.Some? && Sane(t) && TickReads(t, k) && Dated(t, v.scan) && 0 <= Spare(q)
    ensures Held(t, Corrected(q, v, k)) && EntryBytes(Corrected(q, v, k)) <= q.outputBytes
    ensures EntryBytes(v) <= Small(q, t) ==> EntryBytes(Corrected(q, v, k)) <= Small(q, t)
    ensures Held(t, v) && EntryBytes(v) <= q.outputBytes ==>
              EntryBytes(Corrected(q, v, k)) == EntryBytes(v) || EntryBytes(Corrected(q, v, k)) <= Small(q, t)
  {
    FailureSmall(q, t, Invalid, k.time);
    SmallFits(q, t);
    var valid := if v.digest != q.digest || v.at < 1 || v.at > k.checked then Failure(q, Invalid, k.time) else v;
    var whole := valid.complete && k.fresh_;
    var honest := if valid.status == Complete && !whole then valid.(status := Invalid, complete := false) else valid;
    if valid == v && 1 <= v.at <= k.checked {
      DigitsRise(v.at, k.checked);
    }
    TruncatedSmall(q, t, honest);
  }

  lemma SmallFits(q: Query, t: Times)
    requires q.scan.Some? && Sane(t) && 0 <= Spare(q)
    ensures Small(q, t) <= q.outputBytes
  {
    Sizes(q, t.start);
    TimeDigits(t.latest);
  }

  // ------------------------------------------------------------- what no provider exceeds

  /** One entry takes the place of its timeout: as it is, below the point of refusal, or truncated. */
  lemma SettledPressure(plan: Plan, t: Times, entries: seq<QueryResult>, observed: nat, k: nat, value: QueryResult,
                        done: nat, spent: nat)
    requires OneScan(plan) && |entries| == |plan.queries| && k < |plan.queries| && Reading(t, done)
    requires Pending(plan.queries, entries, k, t.start)
    ensures var next := Settled(plan, entries, k, value, done, observed + spent);
            && |next| == |plan.queries| && Pending(plan.queries, next, k + 1, t.start)
            && Pressure(plan, t, next, observed + spent)
               == Pressure(plan, t, entries, observed) + spent + EntryBytes(next[k])
                  - EntryBytes(Failure(plan.queries[0], Timeout, t.start))
            && (next[k] == TruncatedOf(plan.queries[0], value)
                || (next[k] == value && Pressure(plan, t, next, observed + spent) <= t.longest - t.shortest))
  {
    var q := plan.queries[k];
    assert q == plan.queries[0].(key := q.key);
    PressureUpdate(plan, t, entries, k, value, observed, spent);
    PressureUpdate(plan, t, entries, k, TruncatedOf(q, value), observed, spent);
    assert entries[k] == Failure(q, Timeout, t.start);
    assert TruncatedOf(q, value) == TruncatedOf(plan.queries[0], value);
  }

  /** An entry came in place of its timeout: a small one, or a value that was taken as it is. */
  predicate Adds(plan: Plan, t: Times, before: int, after: int, value: QueryResult, entry: QueryResult)
    requires plan.queries != []
  {
    var q := plan.queries[0];
    && Held(t, entry) && after == before + EntryBytes(entry) - EntryBytes(Failure(q, Timeout, t.start))
    && EntryBytes(entry) <= q.outputBytes
    && (EntryBytes(entry) <= Small(q, t)
        || (after <= t.longest - t.shortest && EntryBytes(value) > Small(q, t)
            && (Held(t, value) && EntryBytes(value) <= q.outputBytes ==> EntryBytes(entry) == EntryBytes(value))))
  }

  lemma EntryAdds(plan: Plan, t: Times, entries: seq<QueryResult>, observed: nat, k: nat, tick: Tick,
                  v: QueryResult, spent: nat)
    requires Preflight(plan) && OneScan(plan) && Sane(t) && TickReads(t, tick) && k < |plan.queries|
    requires |entries| == |plan.queries| && Pending(plan.queries, entries, k, t.start) && Dated(t, v.scan)
    ensures var next := Settled(plan, entries, k, Corrected(plan.queries[0], v, tick), tick.done, observed + spent);
            && |next| == |plan.queries| && Pending(plan.queries, next, k + 1, t.start)
            && Adds(plan, t, Pressure(plan, t, entries, observed) + spent, Pressure(plan, t, next, observed + spent),
                v, next[k])
  {
    var q := plan.queries[0];
    var value := Corrected(q, v, tick);
    OpeningPressure(plan, t);
    CorrectedBytes(q, t, v, tick);
    TruncatedSmall(q, t, value);
    SmallFits(q, t);
    SettledPressure(plan, t, entries, observed, k, value, tick.done, spent);
  }

  /** A turn whose provider did not fail, said of the one query. */
  lemma AnsweredTurn(plan: Plan, c: Course, k: nat, tick: Tick, provider: Provider)
    requires OneScan(plan) && |c.entries| == |plan.queries| && k < |plan.queries|
    requires !AnswerOf(plan, c, k, tick.time, provider).failed
    ensures var (a, d, q) := (AnswerOf(plan, c, k, tick.time, provider), Turn(plan, c, k, tick, provider),
        plan.queries[0]);
            && d.entries == Settled(plan, c.entries, k, Corrected(q, a.value, tick), tick.done, c.observed + a.spent)
            && d.observed == c.observed + a.spent && !d.failed && d.cache == c.cache[q.digest := d.entries[k]]
  {
    var (q, q0) := (plan.queries[k], plan.queries[0]);
    assert q == q0.(key := q.key);
    var a := AnswerOf(plan, c, k, tick.time, provider);
    assert Corrected(q, a.value, tick) == Corrected(q0, a.value, tick);
  }

  /** What a turn adds to the pressure, when its provider did not fail. */
  lemma {:induction false} TurnAdds(plan: Plan, t: Times, c: Course, k: nat, tick: Tick, provider: Provider)
    requires Preflight(plan) && OneScan(plan) && Sane(t) && TickReads(t, tick) && k < |plan.queries|
    requires |c.entries| == |plan.queries| && Pending(plan.queries, c.entries, k, t.start)
    requires !AnswerOf(plan, c, k, tick.time, provider).failed
    requires Dated(t, AnswerOf(plan, c, k, tick.time, provider).value.scan)
    ensures var (a, d) := (AnswerOf(plan, c, k, tick.time, provider), Turn(plan, c, k, tick, provider));
            && !d.failed && |d.entries| == |plan.queries| && Pending(plan.queries, d.entries, k + 1, t.start)
            && d.cache == c.cache[plan.queries[0].digest := d.entries[k]]
            && Adds(plan, t, Pressure(plan, t, c.entries, c.observed) + a.spent,
                    Pressure(plan, t, d.entries, d.observed), a.value, d.entries[k])
  {
    var a := AnswerOf(plan, c, k, tick.time, provider);
    AnsweredTurn(plan, c, k, tick, provider);
    EntryAdds(plan, t, c.entries, c.observed, k, tick, a.value, a.spent);
  }

  /** After `j` answers that were taken as they are, the others outgrew their timeouts by evidence at most. */
  ghost predicate Pressed(plan: Plan, t: Times, c: Course, k: nat, j: nat, spent: nat, beyond: int)
    requires plan.queries != []
  {
    var q := plan.queries[0];
    && |c.entries| == |plan.queries| && !c.failed && 1 <= k <= |plan.queries| && j <= k
    && Pending(plan.queries, c.entries, k, t.start)
    && c.cache.Keys == {q.digest} && Held(t, c.cache[q.digest])
    && Phase(plan, t, Pressure(plan, t, c.entries, c.observed), c.cache[q.digest], k, j, spent, beyond)
  }

  /**
   What the pressure and the last answer say about that: every answer taken was of one size and
   stayed below the point of refusal.
   */
  predicate Phase(plan: Plan, t: Times, pressure: int, v: QueryResult, k: nat, j: nat, spent: nat, beyond: int)
    requires plan.queries != []
  {
    var (q, top) := (plan.queries[0], Taken(Base(plan, t), Gap(t.start), spent, beyond, j));
    && j <= k && EntryBytes(v) <= q.outputBytes && spent <= Lent(plan, t.start) && beyond <= Spare(q)
    && (j > 0 ==> 0 < Lent(plan, t.start) && top <= t.longest - t.shortest)
    && if j == k then pressure == top && EntryBytes(v) == EntryBytes(FailureReserve(q)) + beyond
       else EntryBytes(v) <= Small(q, t) && pressure <= top + Mul(k - j, Grow(t))
  }

  /** The first entry is a small one, or was taken. */
  lemma PhaseBegins(plan: Plan, t: Times, after: int, spent: nat, v: QueryResult, entry: QueryResult)
    returns (j: nat, beyond: int)
    requires Preflight(plan) && OneScan(plan) && Sane(t) && spent <= Lent(plan, t.start)
    requires Adds(plan, t, Base(plan, t) + spent, after, v, entry)
    requires Lent(plan, t.start) == 0 ==> EntryBytes(v) <= Small(plan.queries[0], t)
    ensures j <= 1 && Phase(plan, t, after, entry, 1, j, spent, beyond)
  {
    var q := plan.queries[0];
    Sizes(q, t.start);
    beyond := EntryBytes(entry) - EntryBytes(FailureReserve(q));
    j := if EntryBytes(entry) <= Small(q, t) then 0 else 1;
    assert Mul(1, Grow(t)) == Mul(0, Grow(t)) + Grow(t);
    assert Mul(1, beyond + Gap(t.start)) == Mul(0, beyond + Gap(t.start)) + beyond + Gap(t.start);
  }

  /** The next entry is a small one, or the same answer once more. */
  lemma PhaseGoesOn(plan: Plan, t: Times, before: int, after: int, k: nat, j: nat, spent: nat, beyond: int,
                    v: QueryResult, entry: QueryResult) returns (m: nat)
    requires Preflight(plan) && OneScan(plan) && Sane(t) && 1 <= k < |plan.queries| && Held(t, v)
    requires Phase(plan, t, before, v, k, j, spent, beyond) && Adds(plan, t, before, after, v, entry)
    ensures Phase(plan, t, after, entry, k + 1, m, spent, beyond)
  {
    var q := plan.queries[0];
    Sizes(q, t.start);
    if j < k {
      m := j;
      assert Mul(k + 1 - j, Grow(t)) == Mul(k - j, Grow(t)) + Grow(t);
    } else if EntryBytes(entry) <= Small(q, t) {
      m := k;
      assert Mul(k + 1 - k, Grow(t)) == Mul(0, Grow(t)) + Grow(t);
    } else {
      m := k + 1;
      assert Mul(k + 1, beyond + Gap(t.start)) == Mul(k, beyond + Gap(t.start)) + beyond + Gap(t.start);
    }
  }

  /** What the first turn spends was lent, and when nothing is lent the answer is a small one. */
  lemma FirstSpends(plan: Plan, t: Times, time: nat, provider: Provider)
    requires OneScan(plan) && Sane(t) && Reading(t, time) && WithinAllowance(provider) && Dates(t, provider)
    ensures var a := AnswerOf(plan, Opening(plan, t.start), 0, time, provider);
            && (!a.failed ==> a.spent <= Lent(plan, t.start)) && Dated(t, a.value.scan)
            && (Lent(plan, t.start) == 0 ==> EntryBytes(a.value) <= Small(plan.queries[0], t))
  {
    FailureSmall(plan.queries[0], t, Truncated, time);
  }

  lemma OpeningPressed(plan: Plan, t: Times, d: Course, j: nat, spent: nat, beyond: int)
    requires plan.queries != [] && |d.entries| == |plan.queries| && !d.failed && j <= 1
    requires Pending(plan.queries, d.entries, 1, t.start) && d.cache == map[plan.queries[0].digest := d.entries[0]]
    requires Held(t, d.entries[0]) && Phase(plan, t, Pressure(plan, t, d.entries, d.observed), d.entries[0], 1, j,
        spent, beyond)
    ensures Pressed(plan, t, d, 1, j, spent, beyond)
  {
  }

  /** The first turn: nothing is cached, and what is spent was lent. */
  lemma {:induction false} FirstPressed(plan: Plan, t: Times, tick: Tick, provider: Provider)
    returns (j: nat, spent: nat, beyond: int)
    requires Preflight(plan) && OneScan(plan) && Sane(t) && TickReads(t, tick)
    requires WithinAllowance(provider) && Dates(t, provider)
    ensures var c := Turn(plan, Opening(plan, t.start), 0, tick, provider);
            c.failed || Pressed(plan, t, c, 1, j, spent, beyond)
  {
    var c := Opening(plan, t.start);
    var a := AnswerOf(plan, c, 0, tick.time, provider);
    FirstSpends(plan, t, tick.time, provider);
    j, spent, beyond := 0, 0, 0;
    if !a.failed {
      TurnAdds(plan, t, c, 0, tick, provider);
      var d := Turn(plan, c, 0, tick, provider);
      spent := a.spent;
      j, beyond := PhaseBegins(plan, t, Pressure(plan, t, d.entries, d.observed), spent, a.value, d.entries[0]);
      OpeningPressed(plan, t, d, j, spent, beyond);
    }
  }

  /** How a collection goes on from a turn. */
  type Rest = (Course, nat) -> Course

  ghost predicate Goes(plan: Plan, ticks: seq<Tick>, provider: Provider, rest: Rest) {
    && |ticks| == |plan.queries|
    && forall c: Course, k: nat {:trigger Turns(plan, c, k, ticks, provider)} ::
      |c.entries| == |plan.queries| && k <= |ticks| ==>
        rest(c, k) == Turns(plan, c, k, ticks, provider)
  }

  function RestOf(plan: Plan, ticks: seq<Tick>, provider: Provider): Rest
    requires |ticks| == |plan.queries|
  {
    (c: Course, k: nat) =>
      if |c.entries| == |plan.queries| && k <= |ticks| then Turns(plan, c, k, ticks, provider) else c
  }

  lemma RestGoes(plan: Plan, ticks: seq<Tick>, provider: Provider)
    requires |ticks| == |plan.queries|
    ensures Goes(plan, ticks, provider, RestOf(plan, ticks, provider))
  {
  }

  lemma GoesOn(plan: Plan, c: Course, k: nat, ticks: seq<Tick>, provider: Provider, rest: Rest)
    requires Goes(plan, ticks, provider, rest) && |c.entries| == |plan.queries| && k < |ticks|
    requires !c.failed && !ticks[k].expired
    ensures rest(c, k) == rest(Turn(plan, c, k, ticks[k], provider), k + 1)
  {
    assert Turns(plan, c, k, ticks, provider)
        == Turns(plan, Turn(plan, c, k, ticks[k], provider), k + 1, ticks, provider);
  }

  lemma Stops(plan: Plan, c: Course, k: nat, ticks: seq<Tick>, provider: Provider, rest: Rest)
    requires Goes(plan, ticks, provider, rest) && |c.entries| == |plan.queries| && k <= |ticks|
    requires k == |ticks| || ticks[k].expired
    ensures rest(c, k) == c
  {
    assert Turns(plan, c, k, ticks, provider) == c;
  }

  /** Every turn that is taken keeps it. */
  ghost predicate Kept(plan: Plan, ticks: seq<Tick>, provider: Provider, good: (Course, nat) -> bool)
    requires |ticks| == |plan.queries|
  {
    forall c: Course, k: nat {:trigger Turn(plan, c, k, ticks[k], provider)} ::
      |c.entries| == |plan.queries| && k < |ticks| && !ticks[k].expired && !c.failed && good(c, k) ==>
        var d := Turn(plan, c, k, ticks[k], provider);
        |d.entries| == |plan.queries| && !d.failed && good(d, k + 1)
  }

  /** What every turn keeps holds at the end. */
  lemma {:induction false} TurnsKeep(plan: Plan, c: Course, k: nat, ticks: seq<Tick>, provider: Provider, rest: Rest,
                                     good: (Course, nat) -> bool)
    returns (last: nat)
    requires Goes(plan, ticks, provider, rest) && Kept(plan, ticks, provider, good)
    requires |c.entries| == |plan.queries| && k <= |ticks| && !c.failed && good(c, k)
    ensures last <= |ticks| && good(rest(c, k), last)
    decreases |ticks| - k
  {
    if k == |ticks| || ticks[k].expired {
      last := k;
      Stops(plan, c, k, ticks, provider, rest);
    } else {
      var d := Turn(plan, c, k, ticks[k], provider);
      GoesOn(plan, c, k, ticks, provider, rest);
      last := TurnsKeep(plan, d, k + 1, ticks, provider, rest, good);
    }
  }

  /** Every later turn is answered from the cache. */
  lemma {:induction false} LaterPressed(plan: Plan, t: Times, c: Course, k: nat, j: nat, spent: nat, beyond: int,
                                        tick: Tick, provider: Provider)
    returns (m: nat)
    requires Preflight(plan) && OneScan(plan) && Sane(t) && TickReads(t, tick)
    requires k < |plan.queries| && Pressed(plan, t, c, k, j, spent, beyond)
    ensures Pressed(plan, t, Turn(plan, c, k, tick, provider), k + 1, m, spent, beyond)
  {
    var q := plan.queries[0];
    assert plan.queries[k] == q.(key := plan.queries[k].key);
    TurnAdds(plan, t, c, k, tick, provider);
    var d := Turn(plan, c, k, tick, provider);
    m := PhaseGoesOn(plan, t, Pressure(plan, t, c.entries, c.observed), Pressure(plan, t, d.entries, d.observed),
                     k, j, spent, beyond, c.cache[q.digest], d.entries[k]);
  }

  ghost predicate SomePressed(plan: Plan, t: Times, c: Course, k: nat, spent: nat, beyond: int)
    requires plan.queries != []
  {
    exists j: nat :: Pressed(plan, t, c, k, j, spent, beyond)
  }

  ghost function PressedBy(plan: Plan, t: Times, spent: nat, beyond: int): (Course, nat) -> bool
    requires plan.queries != []
  {
    (c: Course, k: nat) => SomePressed(plan, t, c, k, spent, beyond)
  }

  lemma PressedKept(plan: Plan, t: Times, spent: nat, beyond: int, ticks: seq<Tick>, provider: Provider)
    requires Preflight(plan) && OneScan(plan) && Sane(t) && |ticks| == |plan.queries| && TicksRead(t, ticks)
    ensures Kept(plan, ticks, provider, PressedBy(plan, t, spent, beyond))
  {
    forall c: Course, k: nat | |c.entries| == |plan.queries| && k < |ticks| && SomePressed(plan, t, c, k, spent, beyond)
      ensures var d := Turn(plan, c, k, ticks[k], provider);
              |d.entries| == |plan.queries| && !d.failed && SomePressed(plan, t, d, k + 1, spent, beyond)
    {
      var j: nat :| Pressed(plan, t, c, k, j, spent, beyond);
      assert TickReads(t, ticks[k]);
      var m := LaterPressed(plan, t, c, k, j, spent, beyond, ticks[k], provider);
    }
  }

  /** Pressure that exceeds what the slack covers meets the condition. */
  lemma PhaseOverfills(plan: Plan, t: Times, pressure: int, v: QueryResult, k: nat, j: nat, spent: nat, beyond: int)
    requires Preflight(plan) && OneScan(plan) && Sane(t) && 1 <= k <= |plan.queries|
    requires Phase(plan, t, pressure, v, k, j, spent, beyond) && pressure > SLACK * |plan.queries|
    ensures CanOverfill(plan, t)
  {
    var n := |plan.queries|;
    TimeDigits(t.start);
    TimeDigits(t.latest);
    OpeningPressure(plan, t);
    MulRises(k - j, n - j, Grow(t));
    MulIs(n - j, Grow(t));
    if j == 0 {
      NothingTaken(plan, t);
    } else {
      TakenBelow(plan, t, spent, beyond, j);
    }
    assert Overfills(plan, t, j);
  }

  /** Evidence alone does not outgrow what was reserved for it. */
  lemma NothingTaken(plan: Plan, t: Times)
    requires Preflight(plan) && OneScan(plan) && Sane(t)
    ensures Base(plan, t) + Lent(plan, t.start) + Mul(|plan.queries|, Grow(t)) <= SLACK * |plan.queries|
  {
    var n := |plan.queries|;
    TimeDigits(t.start);
    TimeDigits(t.latest);
    OpeningPressure(plan, t);
    MulLess(n, Grow(t), Gap(t.start));
  }

  lemma {:induction false} MulLess(n: nat, a: int, b: int)
    requires a + 8 <= b
    ensures Mul(n, a) + 8 * n <= Mul(n, b)
  {
    if n > 0 {
      MulLess(n - 1, a, b);
    }
  }

  /** The pressure at the end, from the first answer on. */
  lemma {:induction false} TurnsPressed(plan: Plan, t: Times, c: Course, j: nat, spent: nat, beyond: int,
                                        ticks: seq<Tick>, provider: Provider)
    returns (d: Course, k: nat, m: nat)
    requires Preflight(plan) && OneScan(plan) && Sane(t) && |ticks| == |plan.queries| && TicksRead(t, ticks)
    requires Pressed(plan, t, c, 1, j, spent, beyond)
    ensures d == Turns(plan, c, 1, ticks, provider) && Pressed(plan, t, d, k, m, spent, beyond)
  {
    var (rest, good) := (RestOf(plan, ticks, provider), PressedBy(plan, t, spent, beyond));
    RestGoes(plan, ticks, provider);
    PressedKept(plan, t, spent, beyond, ticks, provider);
    assert good(c, 1) by {
      assert SomePressed(plan, t, c, 1, spent, beyond);
    }
    k := TurnsKeep(plan, c, 1, ticks, provider, rest, good);
    d := rest(c, 1);
    assert SomePressed(plan, t, d, k, spent, beyond);
    m :| Pressed(plan, t, d, k, m, spent, beyond);
  }

  /** An opening that nothing follows is below the point of refusal. */
  lemma OpeningBelow(plan: Plan, t: Times, at: nat)
    requires Preflight(plan) && OneScan(plan) && Sane(t) && Reading(t, at)
    ensures var c := Opening(plan, t.start); ResultBytes(plan, c.entries, at) + CONTROL <= plan.outputBytes
  {
    OpeningPressure(plan, t);
    TimeDigits(t.start);
    MulRises(0, |plan.queries|, Gap(t.start));
  }

  /** Whatever the clock and the provider are, an overrun meets the condition for them. */
  lemma {:induction false} OverrunOverfills(plan: Plan, t: Times, ticks: seq<Tick>, provider: Provider, at: nat)
    requires Preflight(plan) && OneScan(plan) && Sane(t) && Overruns(plan, t, ticks, provider, at)
    ensures CanOverfill(plan, t)
  {
    var c := Opening(plan, t.start);
    OpeningBelow(plan, t, at);
    if !ticks[0].expired {
      var j, spent, beyond := FirstPressed(plan, t, ticks[0], provider);
      var first := Turn(plan, c, 0, ticks[0], provider);
      assert Turns(plan, c, 0, ticks, provider) == Turns(plan, first, 1, ticks, provider);
      var d, k, m := TurnsPressed(plan, t, first, j, spent, beyond, ticks, provider);
      PhaseOverfills(plan, t, Pressure(plan, t, d.entries, d.observed), d.cache[plan.queries[0].digest], k, m, spent,
                     beyond);
    }
  }

  // ------------------------------------------------------------- a provider that does it

  /** The answer is taken `j` times, each `beyond` bytes larger than its reserve; `spent` bytes were native ones. */
  datatype Filling = Filling(j: nat, spent: nat, beyond: nat)

  /** The clock stands still; a time before the first second is read as that second. */
  function Now(start: nat): nat {
    if start == 0 then 1 else start
  }

  function Still(start: nat): Tick {
    Tick(false, Now(start), Now(start), true, Now(start))
  }

  function Stamp(latest: nat): Option<nat> {
    if Digits(latest) < NULL_BYTES then None else Some(latest)
  }

  /** An incomplete answer with all the evidence there can be, padded to its size. */
  function Padded(q: Query, t: Times, beyond: nat): QueryResult
    requires q.scan.Some? && t.start <= I64_MAX && t.latest <= I64_MAX
  {
    TimeDigits(t.start);
    TimeDigits(t.latest);
    QueryResult(q.digest, Now(t.start), Partial, false, [], beyond + 67 - Digits(t.start) - 2 * TimeWidth(t.latest),
                Some(Evidence(q.scan.value, Some(SOURCE_BYTES), Stamp(t.latest), Stamp(t.latest))))
  }

  function ProviderOf(q: Query, t: Times, f: Filling): Provider
    requires q.scan.Some? && t.start <= I64_MAX && t.latest <= I64_MAX
  {
    (k: nat, allowance: nat) => Reply(Padded(q, t, f.beyond), if f.spent < allowance then f.spent else allowance)
  }

  predicate Suits(plan: Plan, t: Times, f: Filling)
    requires plan.queries != []
  {
    var top := Taken(Base(plan, t), Gap(t.start), f.spent, f.beyond, f.j);
    && 1 <= f.j < |plan.queries| && 0 < Lent(plan, t.start)
    && f.spent <= Lent(plan, t.start) && f.beyond <= Spare(plan.queries[0])
    && top <= 0 && top + Mul(|plan.queries| - f.j, Grow(t)) > SLACK * |plan.queries|
  }

  predicate IsSteady(t: Times) {
    t == Steady(t.start, t.latest) && Sane(t)
  }

  lemma FillingExists(plan: Plan, t: Times, j: nat) returns (f: Filling)
    requires Preflight(plan) && OneScan(plan) && IsSteady(t)
    requires 0 < Lent(plan, t.start) && Overfills(plan, t, j)
    ensures Suits(plan, t, f)
  {
    OpeningPressure(plan, t);
    RoomIs(plan, t, j);
    var spent, beyond := MostFits(Room(plan, t, j), Spare(plan.queries[0]), Lent(plan, t.start), j);
    f := Filling(j, spent, beyond);
    MulIs(j, beyond + Gap(t.start));
    assert j * (beyond + Gap(t.start)) == j * beyond + j * Gap(t.start);
    MulIs(|plan.queries| - j, Grow(t));
  }

  lemma {:induction false} TakenRises(base: int, gap: int, f: Filling, k: nat)
    requires k <= f.j && 0 <= gap
    ensures Taken(base, gap, f.spent, f.beyond, k) <= Taken(base, gap, f.spent, f.beyond, f.j)
  {
    MulRises(k, f.j, f.beyond + gap);
  }

  /** The answer or what is left of it. */
  predicate Remains(q: Query, t: Times, f: Filling, v: QueryResult)
    requires q.scan.Some? && Sane(t)
  {
    v == Padded(q, t, f.beyond) || v == TruncatedOf(q, Padded(q, t, f.beyond))
  }

  lemma RemainsLarge(q: Query, t: Times, f: Filling, v: QueryResult)
    requires q.scan.Some? && IsSteady(t) && Remains(q, t, f, v) && f.beyond <= Spare(q)
    ensures EntryBytes(v) >= EntryBytes(Failure(q, Timeout, t.start)) + Grow(t)
    ensures TruncatedOf(q, v) == TruncatedOf(q, Padded(q, t, f.beyond))
    ensures v.rows == [] && EntryBytes(v) <= q.outputBytes && Corrected(q, v, Still(t.start)) == v
    ensures EntryBytes(Padded(q, t, f.beyond)) == EntryBytes(Failure(q, Timeout, t.start)) + Gap(t.start) + f.beyond
  {
    TimeDigits(t.latest);
    Sizes(q, t.start);
  }

  lemma StillReads(t: Times)
    requires IsSteady(t)
    ensures Reading(t, Now(t.start)) && TickReads(t, Still(t.start))
  {
    TimeDigits(I64_MAX);
  }

  /** What of the answer is cached, after turns that nothing failed. */
  ghost predicate Repeating(plan: Plan, t: Times, c: Course, f: Filling, k: nat)
    requires OneScan(plan) && Sane(t)
  {
    && |c.entries| == |plan.queries| && 0 < k <= |plan.queries| && !c.failed
        && Pending(plan.queries, c.entries, k, t.start)
    && c.cache.Keys == {plan.queries[0].digest} && Remains(plan.queries[0], t, f, c.cache[plan.queries[0].digest])
  }

  /** The answer was taken `k` times. */
  ghost predicate Filled(plan: Plan, t: Times, c: Course, f: Filling, k: nat)
    requires OneScan(plan) && Sane(t)
  {
    var q := plan.queries[0];
    && Repeating(plan, t, c, f, k) && (forall i :: 0 <= i < |c.entries| ==> c.entries[i].rows == [])
    && c.cache[q.digest] == Padded(q, t, f.beyond)
    && Pressure(plan, t, c.entries, c.observed) == Taken(Base(plan, t), Gap(t.start), f.spent, f.beyond, k)
  }

  /** Below the point of refusal, a value without rows is taken. */
  lemma Accepts(plan: Plan, t: Times, entries: seq<QueryResult>, k: nat, value: QueryResult, at: nat, observed: nat)
    requires |plan.queries| == |entries| && k < |entries| && value.rows == [] && Digits(at) == t.longest
    requires forall i :: 0 <= i < |entries| ==> entries[i].rows == []
    requires Pressure(plan, t, entries[k := value], observed) <= 0
    ensures Settled(plan, entries, k, value, at, observed) == entries[k := value]
  {
    NoRows(entries[k := value]);
  }

  lemma EntryTaken(plan: Plan, t: Times, entries: seq<QueryResult>, k: nat, w: QueryResult, observed: nat, spent: nat)
    requires OneScan(plan) && |entries| == |plan.queries| && k < |entries| && Pending(plan.queries, entries, k, t.start)
    ensures Pressure(plan, t, entries[k := w], observed + spent)
         == Pressure(plan, t, entries, observed) - EntryBytes(Failure(plan.queries[0], Timeout,
             t.start)) + EntryBytes(w) + spent
  {
    PressureUpdate(plan, t, entries, k, w, observed, spent);
    assert entries[k] == Failure(plan.queries[k], Timeout, t.start);
    assert plan.queries[k] == plan.queries[0].(key := plan.queries[k].key);
  }

  lemma TakenNext(base: int, t: Times, f: Filling, k: nat)
    requires k < f.j && t.start <= I64_MAX
    ensures var gap := Gap(t.start);
            && Taken(base, gap, f.spent, f.beyond, k + 1) == Taken(base, gap, f.spent, f.beyond, k) + f.beyond + gap
            && Taken(base, gap, f.spent, f.beyond, k + 1) <= Taken(base, gap, f.spent, f.beyond, f.j)
  {
    TimeDigits(t.start);
    assert Mul(k + 1, f.beyond + Gap(t.start)) == Mul(k, f.beyond + Gap(t.start)) + f.beyond + Gap(t.start);
    TakenRises(base, Gap(t.start), f, k + 1);
  }

  /** The first turn spends its native bytes, and its answer is taken. */
  lemma {:induction false} FirstFilled(plan: Plan, t: Times, f: Filling) returns (d: Course)
    requires Preflight(plan) && OneScan(plan) && IsSteady(t) && Suits(plan, t, f)
    ensures d == Turn(plan, Opening(plan, t.start), 0, Still(t.start), ProviderOf(plan.queries[0], t, f))
    ensures Filled(plan, t, d, f, 1)
  {
    var (q, c, v) := (plan.queries[0], Opening(plan, t.start), Padded(plan.queries[0], t, f.beyond));
    var provider := ProviderOf(q, t, f);
    var a := AnswerOf(plan, c, 0, Now(t.start), provider);
    assert a.value == v && a.spent == f.spent && !a.failed;
    RemainsLarge(q, t, f, v);
    AnsweredTurn(plan, c, 0, Still(t.start), provider);
    EntryTaken(plan, t, c.entries, 0, v, 0, f.spent);
    assert Mul(0, f.beyond + Gap(t.start)) == 0;
    TakenNext(Base(plan, t), t, f, 0);
    StillReads(t);
    Accepts(plan, t, c.entries, 0, v, Now(t.start), f.spent);
    d := Turn(plan, c, 0, Still(t.start), provider);
  }

  /** A turn that is answered from the cache. */
  lemma CachedTurn(plan: Plan, t: Times, c: Course, f: Filling, k: nat)
    requires OneScan(plan) && IsSteady(t) && f.beyond <= Spare(plan.queries[0])
    requires k < |plan.queries| && Repeating(plan, t, c, f, k)
    ensures var (q, d) := (plan.queries[0], Turn(plan, c, k, Still(t.start), ProviderOf(plan.queries[0], t, f)));
            && d.entries == Settled(plan, c.entries, k, c.cache[q.digest], Now(t.start), c.observed)
            && d.observed == c.observed && !d.failed && d.cache == c.cache[q.digest := d.entries[k]]
  {
    var q := plan.queries[0];
    assert plan.queries[k] == q.(key := plan.queries[k].key);
    RemainsLarge(q, t, f, c.cache[q.digest]);
    AnsweredTurn(plan, c, k, Still(t.start), ProviderOf(q, t, f));
  }

  lemma {:induction false} NextTaken(plan: Plan, t: Times, c: Course, f: Filling, k: nat)
    requires Preflight(plan) && OneScan(plan) && IsSteady(t) && Suits(plan, t, f)
    requires k < f.j && Filled(plan, t, c, f, k)
    ensures Filled(plan, t, Turn(plan, c, k, Still(t.start), ProviderOf(plan.queries[0], t, f)), f, k + 1)
  {
    var (q, v) := (plan.queries[0], Padded(plan.queries[0], t, f.beyond));
    RemainsLarge(q, t, f, v);
    CachedTurn(plan, t, c, f, k);
    EntryTaken(plan, t, c.entries, k, v, c.observed, 0);
    TakenNext(Base(plan, t), t, f, k);
    StillReads(t);
    Accepts(plan, t, c.entries, k, v, Now(t.start), c.observed);
  }

  /** Taken or truncated, what remains of the answer adds its evidence. */
  lemma EntryGrows(plan: Plan, t: Times, entries: seq<QueryResult>, k: nat, f: Filling, w: QueryResult, at: nat,
                   observed: nat)
    requires OneScan(plan) && IsSteady(t) && f.beyond <= Spare(plan.queries[0])
    requires |entries| == |plan.queries| && k < |entries| && Pending(plan.queries, entries, k, t.start)
    requires Remains(plan.queries[0], t, f, w)
    ensures var next := Settled(plan, entries, k, w, at, observed);
            && |next| == |entries| && Pending(plan.queries, next, k + 1, t.start)
                && Remains(plan.queries[0], t, f, next[k])
            && Pressure(plan, t, next, observed) >= Pressure(plan, t, entries, observed) + Grow(t)
  {
    var q := plan.queries[0];
    assert plan.queries[k] == q.(key := plan.queries[k].key);
    assert TruncatedOf(plan.queries[k], w) == TruncatedOf(q, w);
    RemainsLarge(q, t, f, w);
    RemainsLarge(q, t, f, TruncatedOf(q, w));
    EntryTaken(plan, t, entries, k, w, observed, 0);
    EntryTaken(plan, t, entries, k, TruncatedOf(q, w), observed, 0);
  }

  lemma {:induction false} NextGrows(plan: Plan, t: Times, c: Course, f: Filling, k: nat)
    requires OneScan(plan) && IsSteady(t) && f.beyond <= Spare(plan.queries[0])
    requires k < |plan.queries| && Repeating(plan, t, c, f, k)
    ensures var d := Turn(plan, c, k, Still(t.start), ProviderOf(plan.queries[0], t, f));
            && Repeating(plan, t, d, f, k + 1)
            && Pressure(plan, t, d.entries, d.observed) >= Pressure(plan, t, c.entries, c.observed) + Grow(t)
  {
    CachedTurn(plan, t, c, f, k);
    EntryGrows(plan, t, c.entries, k, f, c.cache[plan.queries[0].digest], Now(t.start), c.observed);
  }

  /** The clock and the provider of a filling, and how a collection goes on with them. */
  ghost predicate Ours(plan: Plan, t: Times, f: Filling, ticks: seq<Tick>, provider: Provider, rest: Rest)
    requires OneScan(plan) && Sane(t)
  {
    && |ticks| == |plan.queries| && (forall k :: 0 <= k < |ticks| ==> ticks[k] == Still(t.start))
    && provider == ProviderOf(plan.queries[0], t, f) && Goes(plan, ticks, provider, rest)
  }

  lemma GrowStep(plan: Plan, t: Times, c: Course, f: Filling, k: nat, ticks: seq<Tick>, provider: Provider, rest: Rest)
    returns (d: Course)
    requires OneScan(plan) && IsSteady(t) && f.beyond <= Spare(plan.queries[0])
    requires Ours(plan, t, f, ticks, provider, rest) && k < |ticks| && Repeating(plan, t, c, f, k)
    ensures Repeating(plan, t, d, f, k + 1) && rest(c, k) == rest(d, k + 1)
    ensures Pressure(plan, t, d.entries, d.observed) >= Pressure(plan, t, c.entries, c.observed) + Grow(t)
  {
    d := Turn(plan, c, k, ticks[k], provider);
    NextGrows(plan, t, c, f, k);
    GoesOn(plan, c, k, ticks, provider, rest);
  }

  /** Each of the turns that are left adds evidence. */
  lemma {:induction false} GrowsOn(plan: Plan, t: Times, c: Course, f: Filling, k: nat, left: nat, ticks: seq<Tick>,
                                   provider: Provider, rest: Rest)
    returns (d: Course)
    requires OneScan(plan) && IsSteady(t) && f.beyond <= Spare(plan.queries[0])
    requires Ours(plan, t, f, ticks, provider, rest) && Repeating(plan, t, c, f, k) && k + left == |ticks|
    ensures d == rest(c, k) && Repeating(plan, t, d, f, |ticks|)
    ensures Pressure(plan, t, d.entries, d.observed) >= Pressure(plan, t, c.entries, c.observed) + Mul(left, Grow(t))
    decreases left
  {
    if left == 0 {
      d := c;
      Stops(plan, c, k, ticks, provider, rest);
    } else {
      d := GrowStep(plan, t, c, f, k, ticks, provider, rest);
      d := GrowsOn(plan, t, d, f, k + 1, left - 1, ticks, provider, rest);
    }
  }

  lemma TakeStep(plan: Plan, t: Times, c: Course, f: Filling, k: nat, ticks: seq<Tick>, provider: Provider, rest: Rest)
    returns (d: Course)
    requires Preflight(plan) && OneScan(plan) && IsSteady(t) && Suits(plan, t, f)
    requires Ours(plan, t, f, ticks, provider, rest) && k < f.j && Filled(plan, t, c, f, k)
    ensures Filled(plan, t, d, f, k + 1) && rest(c, k) == rest(d, k + 1)
  {
    d := Turn(plan, c, k, ticks[k], provider);
    NextTaken(plan, t, c, f, k);
    GoesOn(plan, c, k, ticks, provider, rest);
  }

  /** The answer is taken until it is due to be refused. */
  lemma {:induction false} TakesAll(plan: Plan, t: Times, c: Course, f: Filling, k: nat, ticks: seq<Tick>,
                                    provider: Provider, rest: Rest)
    returns (d: Course)
    requires Preflight(plan) && OneScan(plan) && IsSteady(t) && Suits(plan, t, f)
    requires Ours(plan, t, f, ticks, provider, rest) && k <= f.j && Filled(plan, t, c, f, k)
    ensures Filled(plan, t, d, f, f.j) && rest(c, k) == rest(d, f.j)
    decreases f.j - k
  {
    if k == f.j {
      d := c;
    } else {
      d := TakeStep(plan, t, c, f, k, ticks, provider, rest);
      d := TakesAll(plan, t, d, f, k + 1, ticks, provider, rest);
    }
  }

  lemma FirstStep(plan: Plan, t: Times, f: Filling, ticks: seq<Tick>, provider: Provider, rest: Rest)
    returns (d: Course)
    requires Preflight(plan) && OneScan(plan) && IsSteady(t) && Suits(plan, t, f)
    requires Ours(plan, t, f, ticks, provider, rest)
    ensures Filled(plan, t, d, f, 1) && rest(Opening(plan, t.start), 0) == rest(d, 1)
  {
    var opening := Opening(plan, t.start);
    d := FirstFilled(plan, t, f);
    GoesOn(plan, opening, 0, ticks, provider, rest);
    assert ticks[0] == Still(t.start);
  }

  /** The pressure once everything was taken that could be, and what is added then. */
  lemma EndsOver(plan: Plan, t: Times, f: Filling, c: Course, left: nat, pressure: int)
    requires OneScan(plan) && Sane(t) && Suits(plan, t, f) && Filled(plan, t, c, f, f.j) && f.j + left == |plan.queries|
    requires pressure >= Pressure(plan, t, c.entries, c.observed) + Mul(left, Grow(t))
    ensures pressure > SLACK * |plan.queries|
  {
    assert left == |plan.queries| - f.j;
  }

  lemma RunsOver(plan: Plan, t: Times, f: Filling, ticks: seq<Tick>, provider: Provider, rest: Rest)
    returns (d: Course)
    requires Preflight(plan) && OneScan(plan) && IsSteady(t) && Suits(plan, t, f)
    requires Ours(plan, t, f, ticks, provider, rest)
    ensures d == rest(Opening(plan, t.start), 0) && !d.failed && |d.entries| == |plan.queries|
    ensures Pressure(plan, t, d.entries, d.observed) > SLACK * |plan.queries|
  {
    var left := |plan.queries| - f.j;
    var first := FirstStep(plan, t, f, ticks, provider, rest);
    var c := TakesAll(plan, t, first, f, 1, ticks, provider, rest);
    d := GrowsOn(plan, t, c, f, f.j, left, ticks, provider, rest);
    EndsOver(plan, t, f, c, left, Pressure(plan, t, d.entries, d.observed));
  }

  lemma OursIsAllowed(plan: Plan, t: Times, f: Filling, ticks: seq<Tick>, provider: Provider, rest: Rest)
    requires OneScan(plan) && IsSteady(t) && Ours(plan, t, f, ticks, provider, rest)
    ensures TicksRead(t, ticks) && Reading(t, Now(t.start)) && WithinAllowance(provider) && Dates(t, provider)
  {
    StillReads(t);
    var v := Padded(plan.queries[0], t, f.beyond);
    assert Dated(t, v.scan);
    assert forall k, allowance :: provider(k, allowance).Reply? && provider(k, allowance).value == v;
  }

  lemma OversOverrun(plan: Plan, t: Times, ticks: seq<Tick>, provider: Provider, at: nat, d: Course)
    requires Sane(t) && |ticks| == |plan.queries| && TicksRead(t, ticks) && Reading(t, at) && Digits(at) == t.longest
    requires WithinAllowance(provider) && Dates(t, provider)
    requires Turns(plan, Opening(plan, t.start), 0, ticks, provider) == d && !d.failed && |d.entries| == |plan.queries|
    requires Pressure(plan, t, d.entries, d.observed) > SLACK * |plan.queries|
    ensures Overruns(plan, t, ticks, provider, at)
  {
  }

  /** With the clock standing still, the filling answer takes the collection beyond its budget. */
  lemma {:induction false} FillingOverruns(plan: Plan, t: Times, f: Filling)
    requires Preflight(plan) && OneScan(plan) && IsSteady(t) && Suits(plan, t, f)
    ensures exists ticks: seq<Tick> :: (forall k :: 0 <= k < |ticks| ==> ticks[k] == Still(t.start))
                                       && Overruns(plan, t, ticks, ProviderOf(plan.queries[0], t, f), Now(t.start))
  {
    var (ticks, provider) := (seq(|plan.queries|, _ => Still(t.start)), ProviderOf(plan.queries[0], t, f));
    var rest := RestOf(plan, ticks, provider);
    RestGoes(plan, ticks, provider);
    var d := RunsOver(plan, t, f, ticks, provider, rest);
    OursIsAllowed(plan, t, f, ticks, provider, rest);
    assert Turns(plan, Opening(plan, t.start), 0, ticks, provider) == d;
    OversOverrun(plan, t, ticks, provider, Now(t.start), d);
  }

  // ------------------------------------------------------------- the exact condition

  /**
   A plan that lists one scan query any number of times, and a clock whose readings have as many
   digits as the first: some provider that stays within what it is lent takes the result beyond
   the budget exactly when there is something to lend and the query's own limit leaves room for
   an answer large enough.
   */
  lemma OverrunsExactly(plan: Plan, start: nat, latest: nat)
    requires Preflight(plan) && OneScan(plan) && start <= I64_MAX && latest <= I64_MAX
    ensures CanOverrun(plan, Steady(start, latest)) <==> CanOverfill(plan, Steady(start, latest))
  {
    var t := Steady(start, latest);
    TimeDigits(start);
    if CanOverrun(plan, t) {
      var ticks: seq<Tick>, provider: Provider, at: nat :| Overruns(plan, t, ticks, provider, at);
      OverrunOverfills(plan, t, ticks, provider, at);
    }
    if CanOverfill(plan, t) {
      var j: nat :| j < |plan.queries| && Overfills(plan, t, j);
      var f := FillingExists(plan, t, j);
      FillingOverruns(plan, t, f);
    }
  }

  /** Whatever the clock reads and the evidence says, without the condition for that no provider overruns. */
  lemma NoneOverruns(plan: Plan, start: nat)
    requires Preflight(plan) && OneScan(plan) && start <= I64_MAX && !CanOverfill(plan, Anyhow(start))
    ensures !CanOverrun(plan, Anyhow(start))
  {
    var t := Anyhow(start);
    TimeDigits(start);
    if CanOverrun(plan, t) {
      var ticks: seq<Tick>, provider: Provider, at: nat :| Overruns(plan, t, ticks, provider, at);
      OverrunOverfills(plan, t, ticks, provider, at);
    }
  }

  /** With two listings, the limit decides alone: a few hundred bytes beyond the reserve are too many. */
  lemma TwoListings(plan: Plan, start: nat, latest: nat)
    requires Preflight(plan) && OneScan(plan) && start <= I64_MAX && latest <= I64_MAX && |plan.queries| == 2
    ensures CanOverrun(plan, Steady(start, latest))
            <==> && 0 < Lent(plan, start) && Digits(latest) >= 5
                 && Spare(plan.queries[0]) > 321 - Digits(start) - 2 * Digits(latest)
  {
    var t := Steady(start, latest);
    OverrunsExactly(plan, start, latest);
    TimeDigits(start);
    if 0 < Lent(plan, start) {
      OneTaken(plan, t);
      if CanOverfill(plan, t) {
        var j: nat :| j < |plan.queries| && Overfills(plan, t, j);
        assert j == 1;
      }
    }
  }

  /** The condition for one answer of two. */
  lemma OneTaken(plan: Plan, t: Times)
    requires Preflight(plan) && OneScan(plan) && IsSteady(t) && |plan.queries| == 2 && 0 < Lent(plan, t.start)
    ensures Overfills(plan, t, 1)
            <==> && Digits(t.latest) >= 5
                 && Spare(plan.queries[0]) > 321 - Digits(t.start) - 2 * Digits(t.latest)
  {
    TimeDigits(t.start);
    TimeDigits(t.latest);
    OpeningPressure(plan, t);
    RoomIs(plan, t, 1);
    MulIs(2, Gap(t.start));
  }

  const NOW: nat := 1_700_000_000

  /** A scan query listed twice, as a plan may hold it. */
  function Repeated(limit: nat): Plan {
    Plan([Query(1, 3, Some(8), limit), Query(1, 3, Some(8), limit)], 4_000, 10)
  }

  lemma NowDigits()
    ensures Digits(NOW) == 10 && Digits(I64_MAX) == 19
  {
    assert Power(9) == 1_000_000_000 && Power(10) == 10_000_000_000;
    DigitsBelow(NOW, 10);
    DigitsAbove(NOW, 10);
    TimeDigits(I64_MAX);
  }

  lemma RepeatedIsAccepted(limit: nat)
    requires 504 <= limit
    ensures Preflight(Repeated(limit)) && OneScan(Repeated(limit)) && 0 < Lent(Repeated(limit), NOW)
    ensures EntryBytes(FailureReserve(Repeated(limit).queries[0])) == 504
  {
    var (plan, q) := (Repeated(limit), Repeated(limit).queries[0]);
    NowDigits();
    ReserveBytes(q);
    assert plan.queries[1..] == [q];
    var reserves := Reserves(plan.queries);
    assert Entries([q], reserves[1..]) == 3 + EntryBytes(reserves[1]);
    assert Entries(plan.queries, reserves) == 6 + 2 * EntryBytes(FailureReserve(q));
    OpeningPressure(plan, Steady(NOW, NOW));
  }

  /**
   An accepted plan, and a whole collection of it that ends beyond its budget: with every time
   today's, from a limit of 796 bytes on; with evidence of any time, from 778 bytes on.
   */
  lemma RepeatedEvidenceOverruns(limit: nat)
    requires 504 <= limit
    ensures Preflight(Repeated(limit)) && !FewRepeats(Repeated(limit).queries)
    ensures CanOverrun(Repeated(limit), Steady(NOW, NOW)) <==> 796 <= limit
    ensures CanOverrun(Repeated(limit), Steady(NOW, I64_MAX)) <==> 778 <= limit
  {
    RepeatedIsAccepted(limit);
    NowDigits();
    assert Repeats(Repeated(limit).queries, 2) >= 1 by {
      assert SeenDigests(Repeated(limit).queries, 1) == {1};
    }
    TwoListings(Repeated(limit), NOW, NOW);
    TwoListings(Repeated(limit), NOW, I64_MAX);
  }
}
