/**
 The record store of collected data: atomic batches of values, completion receipts, projected
 material, settings snapshots and request identities. A commit may evict old values for room.
 */
module CollectedStore {
  import opened CollectedRows

  datatype Association = Association(query: string, subject: string, session: string, createdAt: nat)

  datatype Key =
    | Settings(owner: string, section: string)
    | Request(request: string)
    | Input(request: string)
    | Receipt(request: string)
    | Latest(query: string)
    | Projected(query: string)
    | Definition(query: string)

  datatype Record =
    | SettingsRecord(at: nat, content: nat)
    | AssociationRecord(association: Association)
    | PlanRecord(plan: nat)
    | ValueRecord(value: Collected)
    | MaterialRecord(material: nat)

  type Store = map<Key, Record>

  /** Keys and records belong together, and a value is stored under its own query. */
  predicate Typed(s: Store) {
    forall k :: k in s ==>
                  match k
                  case Settings(_, _) => s[k].SettingsRecord?
                  case Request(_) => s[k].AssociationRecord?
                  case Input(_) => s[k].PlanRecord?
                  case Definition(_) => s[k].PlanRecord?
                  case Receipt(_) => s[k].ValueRecord? && Fits(s[k].value)
                  case Latest(q) => s[k].ValueRecord? && Fits(s[k].value) && s[k].value.query == q
                  case Projected(_) => s[k].MaterialRecord?
  }

  /** No request is both waiting and answered. */
  ghost predicate Sound(s: Store) {
    Typed(s) && forall r :: Input(r) in s ==> Receipt(r) !in s
  }

  /** Only values make room for others. */
  predicate Evictable(k: Key) {
    k.Latest? || k.Projected? || k.Receipt?
  }

  /** What a commit leaves: deletions, then writes, then any evictions outside the batch. */
  function Committed(s: Store, writes: Store, remove: set<Key>, evict: set<Key>): Store {
    map k | k in s.Keys + writes.Keys && (k in writes || (k !in remove && !(k in evict && Evictable(k))))
      :: if k in writes then writes[k] else s[k]
  }

  /** Absent is before every time. */
  predicate NotAfter(a: Option<nat>, b: Option<nat>) {
    a.None? || (b.Some? && a.value <= b.value)
  }

  predicate Newer(s: Store, v: Collected) {
    Latest(v.query) in s && s[Latest(v.query)].ValueRecord? ==> NotAfter(s[Latest(v.query)].value.at, v.at)
  }

  /** The records of one value: its latest, unless something newer is stored, and its receipt. */
  function WritesOfOne(s: Store, v: Collected): Store {
    var b := Bounded(v);
    (if Newer(s, b) then map[Latest(b.query) := ValueRecord(b)] else map[])
    + (if b.request.Some? then map[Receipt(b.request.value) := ValueRecord(b)] else map[])
  }

  function WritesOf(s: Store, values: seq<Collected>): Store {
    if values == [] then map[]
    else WritesOf(s, values[..|values| - 1]) + WritesOfOne(s, values[|values| - 1])
  }

  /** Material of a query in the batch goes in only with its latest value. */
  function WithMaterial(values: seq<Collected>, writes: Store, extra: seq<(string, nat)>): Store {
    if extra == [] then writes
    else
      var before := WithMaterial(values, writes, extra[..|extra| - 1]);
      var (id, material) := extra[|extra| - 1];
      if InBatch(values, id) && Latest(id) !in before then before else before[Projected(id) := MaterialRecord(material)]
  }

  predicate InBatch(values: seq<Collected>, id: string) {
    exists i :: 0 <= i < |values| && values[i].query == id
  }

  function Answered(values: seq<Collected>): set<Key> {
    set i | 0 <= i < |values| && values[i].request.Some? :: Input(values[i].request.value)
  }

  datatype Op =
    | Snapshots(values: seq<Collected>, extra: seq<(string, nat)>, safe: bool, room: bool, evict: set<Key>)
    | Remember(request: string, plan: nat, registered: set<string>, room: bool, evict: set<Key>)
    | ForgetInput(request: string)
    | Retire(request: string)
    | SettingsWrite(owner: string, section: string, at: nat, content: nat, room: bool, evict: set<Key>)
    | Associate(request: string, association: Association, room: bool, evict: set<Key>)

  predicate Same(a: Association, b: Association) {
    a.(createdAt := b.createdAt) == b
  }

  /** A commit without room changes nothing. */
  function Apply(s: Store, op: Op): Store {
    match op
    case Snapshots(values, extra, safe, room, evict) =>
      if !safe || !room then s
      else Committed(s, WithMaterial(values, WritesOf(s, values), extra), Answered(values), evict)
    case Remember(request, plan, registered, room, evict) =>
      if !room then s
      else
        var t := Committed(s, map id | id in registered :: Definition(id) := PlanRecord(plan), {}, evict);
        if Receipt(request) in t then t else Committed(t, map[Input(request) := PlanRecord(plan)], {}, evict)
    case ForgetInput(request) => s - {Input(request)}
    case Retire(request) => s - {Receipt(request), Input(request), Request(request)}
    case SettingsWrite(owner, section, at, content, room, evict) =>
      var k := Settings(owner, section);
      if !room || (k in s && s[k].SettingsRecord? && s[k].at >= at) then s
      else Committed(s, map[k := SettingsRecord(at, content)], {}, evict)
    case Associate(request, a, room, evict) =>
      if !room || Request(request) in s then s
      else Committed(s, map[Request(request) := AssociationRecord(a)], {}, evict)
  }

  // ----------------------------------------------------------------- invariant

  lemma OneTyped(s: Store, v: Collected)
    ensures Typed(WritesOfOne(s, v))
    ensures forall k :: k in WritesOfOne(s, v) ==>
        k == Latest(v.query)
        || (v.request.Some? && k == Receipt(v.request.value))
  {
    BoundedMarksEveryDrop(v);
  }

  lemma AnsweredMore(values: seq<Collected>)
    requires values != []
    ensures var n := |values| - 1;
            Answered(values)
            == Answered(values[..n]) + if values[n].request.Some? then {Input(values[n].request.value)} else {}
  {
    var n := |values| - 1;
    forall k | k in Answered(values[..n])
      ensures k in Answered(values)
    {
      var i :| 0 <= i < n && values[..n][i].request.Some? && k == Input(values[..n][i].request.value);
      assert values[i].request.Some?;
    }
    forall k | k in Answered(values)
      ensures k in Answered(values[..n]) || (values[n].request.Some? && k == Input(values[n].request.value))
    {
      var i :| 0 <= i < |values| && values[i].request.Some? && k == Input(values[i].request.value);
      assert i < n ==> values[..n][i].request.Some?;
    }
  }

  lemma {:induction false} WritesTyped(s: Store, values: seq<Collected>)
    ensures Typed(WritesOf(s, values))
    ensures forall k :: k in WritesOf(s, values) ==> k.Latest? || (k.Receipt? && Input(k.request) in Answered(values))
    decreases |values|
  {
    if values != [] {
      var n := |values| - 1;
      WritesTyped(s, values[..n]);
      OneTyped(s, values[n]);
      AnsweredMore(values);
    }
  }

  lemma {:induction false} MaterialTyped(values: seq<Collected>, writes: Store, extra: seq<(string, nat)>)
    requires Typed(writes)
    ensures Typed(WithMaterial(values, writes, extra))
    ensures forall k :: k !in writes && k in WithMaterial(values, writes, extra) ==> k.Projected?
    ensures forall k :: k in writes && !k.Projected? ==>
                          k in WithMaterial(values, writes, extra)
                              && WithMaterial(values, writes, extra)[k] == writes[k]
    decreases |extra|
  {
    if extra != [] {
      MaterialTyped(values, writes, extra[..|extra| - 1]);
    }
  }

  lemma CommittedTyped(s: Store, writes: Store, remove: set<Key>, evict: set<Key>)
    requires Typed(s) && Typed(writes)
    ensures Typed(Committed(s, writes, remove, evict))
  {
  }

  lemma {:induction false} SnapshotsSound(s: Store, op: Op)
    requires Sound(s) && op.Snapshots?
    ensures Sound(Apply(s, op))
  {
    if op.safe && op.room {
      var w := WritesOf(s, op.values);
      WritesTyped(s, op.values);
      MaterialTyped(op.values, w, op.extra);
      CommittedTyped(s, WithMaterial(op.values, w, op.extra), Answered(op.values), op.evict);
    }
  }

  lemma {:induction false} RememberSound(s: Store, op: Op)
    requires Sound(s) && op.Remember?
    ensures Sound(Apply(s, op))
  {
    if op.room {
      var defs: Store := map id | id in op.registered :: Definition(id) := PlanRecord(op.plan);
      CommittedTyped(s, defs, {}, op.evict);
      var t := Committed(s, defs, {}, op.evict);
      CommittedTyped(t, map[Input(op.request) := PlanRecord(op.plan)], {}, op.evict);
    }
  }

  lemma {:induction false} ApplySound(s: Store, op: Op)
    requires Sound(s)
    ensures Sound(Apply(s, op))
  {
    match op
    case Snapshots(_, _, _, _, _) => SnapshotsSound(s, op);
    case Remember(_, _, _, _, _) => RememberSound(s, op);
    case SettingsWrite(owner, section, at, content, room, evict) =>
      CommittedTyped(s, map[Settings(owner, section) := SettingsRecord(at, content)], {}, evict);
    case Associate(request, a, room, evict) =>
      CommittedTyped(s, map[Request(request) := AssociationRecord(a)], {}, evict);
    case _ =>
  }

  function Run(s: Store, ops: seq<Op>): Store
    decreases |ops|
  {
    if ops == [] then s else Run(Apply(s, ops[0]), ops[1..])
  }

  /** Any run from an empty store: no request is waiting and answered, and every stored value is within its bounds. */
  lemma {:induction false} RunSound(s: Store, ops: seq<Op>)
    requires Sound(s)
    ensures Sound(Run(s, ops))
    decreases |ops|
  {
    if ops != [] {
      ApplySound(s, ops[0]);
      RunSound(Apply(s, ops[0]), ops[1..]);
    }
  }

  // ------------------------------------------------------------ latest values

  lemma {:induction false} WritesNewer(s: Store, values: seq<Collected>, id: string)
    requires Typed(s) && Latest(id) in s && Latest(id) in WritesOf(s, values)
    ensures Typed(WritesOf(s, values)) && NotAfter(s[Latest(id)].value.at, WritesOf(s, values)[Latest(id)].value.at)
    decreases |values|
  {
    var n := |values| - 1;
    WritesTyped(s, values);
    WritesTyped(s, values[..n]);
    OneTyped(s, values[n]);
    if Latest(id) !in WritesOfOne(s, values[n]) {
      WritesNewer(s, values[..n], id);
    }
  }

  /** What a batch writes at a key, looking through the added material. */
  lemma {:induction false} BatchWrites(s: Store, op: Op, k: Key)
    requires Sound(s) && op.Snapshots? && op.safe && op.room && !k.Projected?
    ensures var w, after := WritesOf(s, op.values), Apply(s, op);
            && (k in w ==> k in after && after[k] == w[k])
            && (k !in w && k in after ==> k in s && after[k] == s[k])
  {
    WritesTyped(s, op.values);
    MaterialTyped(op.values, WritesOf(s, op.values), op.extra);
  }

  /** A stored latest value is never replaced by one collected earlier. */
  lemma {:induction false} LatestNeverGoesBack(s: Store, op: Op, id: string)
    requires Sound(s) && Latest(id) in s && Latest(id) in Apply(s, op)
    ensures Sound(Apply(s, op)) && NotAfter(s[Latest(id)].value.at, Apply(s, op)[Latest(id)].value.at)
  {
    ApplySound(s, op);
    match op
    case Snapshots(values, extra, safe, room, evict) =>
      if safe && room {
        BatchWrites(s, op, Latest(id));
        if Latest(id) in WritesOf(s, values) {
          WritesNewer(s, values, id);
        }
      }
    case _ =>
  }

  predicate AlwaysThere(s: Store, ops: seq<Op>, k: Key)
    decreases |ops|
  {
    k in s && (ops == [] || AlwaysThere(Apply(s, ops[0]), ops[1..], k))
  }

  /** Over any run in which it is never evicted, the collection time of a latest value only rises. */
  lemma {:induction false} LatestRises(s: Store, ops: seq<Op>, id: string)
    requires Sound(s) && AlwaysThere(s, ops, Latest(id))
    ensures Sound(Run(s, ops)) && Latest(id) in Run(s, ops)
    ensures NotAfter(s[Latest(id)].value.at, Run(s, ops)[Latest(id)].value.at)
    decreases |ops|
  {
    if ops != [] {
      var next := Apply(s, ops[0]);
      LatestNeverGoesBack(s, ops[0], id);
      LatestRises(next, ops[1..], id);
    }
  }

  /**
   Entry `j` is what a batch writes as the latest of its query: newer than what is stored, with no
   such entry after it.
   */
  predicate Writes(s: Store, values: seq<Collected>, j: nat)
    requires j < |values|
  {
    && Newer(s, Bounded(values[j]))
    && forall k :: j < k < |values| && values[k].query == values[j].query ==> !Newer(s, Bounded(values[k]))
  }

  lemma OneLatest(s: Store, v: Collected)
    ensures Latest(v.query) in WritesOfOne(s, v) <==> Newer(s, Bounded(v))
    ensures Newer(s, Bounded(v)) ==> WritesOfOne(s, v)[Latest(v.query)] == ValueRecord(Bounded(v))
    ensures forall id :: id != v.query ==> Latest(id) !in WritesOfOne(s, v)
  {
    OneTyped(s, v);
  }

  lemma JoinAt(a: Store, b: Store, k: Key)
    ensures k in a + b <==> k in a || k in b
    ensures k in b ==> (a + b)[k] == b[k]
    ensures k in a && k !in b ==> (a + b)[k] == a[k]
  {
  }

  /** The last entry of a query that is newer than what is stored is what the batch writes. */
  lemma {:induction false} WritesLast(s: Store, values: seq<Collected>, j: nat, k: Key, record: Record)
    requires j < |values| && Writes(s, values, j) && k == Latest(values[j].query)
        && record == ValueRecord(Bounded(values[j]))
    ensures k in WritesOf(s, values) && WritesOf(s, values)[k] == record
    decreases |values|
  {
    var n := |values| - 1;
    var a, b := WritesOf(s, values[..n]), WritesOfOne(s, values[n]);
    JoinAt(a, b, k);
    OneLatest(s, values[n]);
    if j < n {
      assert values[..n][j] == values[j];
      assert forall m :: j < m < n ==> values[..n][m] == values[m];
      WritesLast(s, values[..n], j, k, record);
    }
  }

  /** A query none of whose entries is newer is not written. */
  lemma {:induction false} NotWritten(s: Store, values: seq<Collected>, id: string)
    requires forall i :: 0 <= i < |values| && values[i].query == id ==> !Newer(s, Bounded(values[i]))
    ensures Latest(id) !in WritesOf(s, values)
    decreases |values|
  {
    if values != [] {
      var n := |values| - 1;
      OneLatest(s, values[n]);
      JoinAt(WritesOf(s, values[..n]), WritesOfOne(s, values[n]), Latest(id));
      NotWritten(s, values[..n], id);
    }
  }

  lemma {:induction false} LastNewer(s: Store, values: seq<Collected>, i: nat) returns (j: nat)
    requires i < |values| && Newer(s, Bounded(values[i]))
    ensures i <= j < |values| && values[j].query == values[i].query && Writes(s, values, j)
    decreases |values| - i
  {
    if Writes(s, values, i) {
      j := i;
    } else {
      var k :| i < k < |values| && values[k].query == values[i].query && Newer(s, Bounded(values[k]));
      j := LastNewer(s, values, k);
    }
  }

  /** Entry `i` is overwritten by a later entry of its query that was collected before it. */
  predicate Overtaken(s: Store, values: seq<Collected>, i: nat)
    requires i < |values|
  {
    exists j :: i < j < |values| && values[j].query == values[i].query && Writes(s, values, j)
                && !NotAfter(values[i].at, values[j].at)
  }

  /** What is stored for the query of entry `i` when no entry of that query is newer. */
  lemma {:induction false} StoredStays(s: Store, op: Op, i: nat)
    requires Sound(s) && op.Snapshots? && op.safe && op.room && i < |op.values|
    requires Latest(op.values[i].query) in Apply(s, op)
    requires forall j :: 0 <= j < |op.values| && op.values[j].query == op.values[i].query ==>
        !Newer(s, Bounded(op.values[j]))
    ensures Sound(Apply(s, op)) && NotAfter(op.values[i].at, Apply(s, op)[Latest(op.values[i].query)].value.at)
    ensures !Overtaken(s, op.values, i)
  {
    var id := op.values[i].query;
    ApplySound(s, op);
    NotWritten(s, op.values, id);
    BatchWrites(s, op, Latest(id));
    assert !Newer(s, Bounded(op.values[i]));
  }

  /** What is stored for the query of entry `i` when entry `j` is the one that is written. */
  lemma {:induction false} StoredMoves(s: Store, op: Op, i: nat, j: nat)
    requires Sound(s) && op.Snapshots? && op.safe && op.room && i < |op.values| && j < |op.values|
    requires op.values[j].query == op.values[i].query && Writes(s, op.values, j)
    ensures Sound(Apply(s, op)) && Latest(op.values[i].query) in Apply(s, op)
    ensures Apply(s, op)[Latest(op.values[i].query)] == ValueRecord(Bounded(op.values[j]))
  {
    var k := Latest(op.values[i].query);
    ApplySound(s, op);
    WritesLast(s, op.values, j, k, ValueRecord(Bounded(op.values[j])));
    BatchWrites(s, op, k);
  }

  /** At most one entry of a query is the one that is written. */
  lemma WritesOnce(s: Store, values: seq<Collected>, j: nat, k: nat)
    requires j < |values| && k < |values| && values[j].query == values[k].query && Writes(s, values, j)
        && Writes(s, values, k)
    ensures j == k
  {
  }

  /** An entry that is not newer is older than what was stored, so also than whatever replaces that. */
  lemma NotNewerIsOlder(s: Store, a: Collected, b: Collected)
    requires a.query == b.query && !Newer(s, a) && Newer(s, b)
    ensures NotAfter(a.at, b.at)
  {
  }

  /**
   After a batch, the stored value of a query is at least as recent as entry `i` exactly when no
   later entry of the query, collected before it, is the one that is written.
   */
  lemma {:induction false} BatchIsVisibleExactly(s: Store, op: Op, i: nat)
    requires Sound(s) && op.Snapshots? && op.safe && op.room && i < |op.values|
    requires Latest(op.values[i].query) in Apply(s, op)
    ensures Sound(Apply(s, op))
    ensures NotAfter(op.values[i].at, Apply(s, op)[Latest(op.values[i].query)].value.at) <==>
        !Overtaken(s, op.values, i)
  {
    var values := op.values;
    if n: nat :| n < |values| && values[n].query == values[i].query && Newer(s, Bounded(values[n])) {
      var j := LastNewer(s, values, n);
      StoredMoves(s, op, i, j);
      OvertakenByLast(s, values, i, j);
    } else {
      StoredStays(s, op, i);
    }
  }

  lemma OvertakenByLast(s: Store, values: seq<Collected>, i: nat, j: nat)
    requires i < |values| && j < |values| && values[j].query == values[i].query && Writes(s, values, j)
    ensures NotAfter(values[i].at, values[j].at) <==> !Overtaken(s, values, i)
  {
    if i > j {
      assert !Newer(s, Bounded(values[i]));
      NotNewerIsOlder(s, Bounded(values[i]), Bounded(values[j]));
    }
    forall k | i < k < |values| && values[k].query == values[i].query && Writes(s, values, k)
      ensures k == j
    {
      WritesOnce(s, values, j, k);
    }
  }

  /** With every query once, nothing is overtaken. */
  lemma DistinctVisible(s: Store, values: seq<Collected>, i: nat)
    requires i < |values| && forall j :: 0 <= j < |values| && values[j].query == values[i].query ==> j == i
    ensures !Overtaken(s, values, i)
  {
  }

  /** A query of a read plan, under the name the plan gives it. */
  datatype PlanQuery = PlanQuery(name: string, definition: string, budget: nat)

  /** What registering makes its identity: its meaning, whatever its name and budget. */
  function Registered(q: PlanQuery): string {
    "native:" + q.definition
  }

  /** The value of a plan query that found no rows, whole, at a time. */
  function Found(q: PlanQuery, at: nat): Source {
    Source(Registered(q), None, at, Some(Observation(StatusComplete, true, [], at)), false, true, true, false,
           None, Some(map[]), m => 2)
  }

  /**
   A plan that asks the same under two names makes one query of both: in the batch of that read
   the later name wins, even when the clock was set back in between.
   */
  lemma RepeatedQueryGoesBack(a: PlanQuery, b: PlanQuery)
    requires a.name != b.name && a.definition == b.definition
    ensures NativeValue(Found(a, 10)).Ok? && NativeValue(Found(b, 5)).Ok?
    ensures var values := [NativeValue(Found(a, 10)).value, NativeValue(Found(b, 5)).value];
            && WritesOf(map[], values) == map[Latest(Registered(a)) := ValueRecord(values[1])]
            && Overtaken(map[], values, 0)
  {
    var late, early := NativeValue(Found(a, 10)).value, NativeValue(Found(b, 5)).value;
    BoundedMarksEveryDrop(late);
    BoundedMarksEveryDrop(early);
    assert [late, early][..1] == [late] && [late][..0] == [];
    assert WritesOf(map[], [late]) == map[] + WritesOfOne(map[], late);
    assert WritesOfOne(map[], late) == map[Latest(late.query) := ValueRecord(late)];
    assert WritesOfOne(map[], early) == map[Latest(early.query) := ValueRecord(early)];
    assert Writes(map[], [late, early], 1);
  }

  // --------------------------------------------------------- projected material

  lemma {:induction false} MaterialNeedsLatest(values: seq<Collected>, writes: Store, extra: seq<(string, nat)>,
                                               id: string)
    requires Typed(writes) && Projected(id) !in writes && Projected(id) in WithMaterial(values, writes, extra)
    ensures InBatch(values, id) ==> Latest(id) in writes
    decreases |extra|
  {
    var n := |extra| - 1;
    MaterialTyped(values, writes, extra[..n]);
    if Projected(id) in WithMaterial(values, writes, extra[..n]) {
      MaterialNeedsLatest(values, writes, extra[..n], id);
    }
  }

  /** Material of a query in the batch changes only in the commit that also writes its latest value. */
  lemma {:induction false} MaterialGoesWithLatest(s: Store, op: Op, id: string)
    requires Sound(s) && op.Snapshots? && InBatch(op.values, id)
    requires Projected(id) in Apply(s, op) && (Projected(id) in s ==> s[Projected(id)] != Apply(s, op)[Projected(id)])
    ensures op.safe && op.room
    ensures Latest(id) in WritesOf(s, op.values) && Latest(id) in Apply(s, op)
    ensures Apply(s, op)[Latest(id)] == WritesOf(s, op.values)[Latest(id)]
  {
    var w := WritesOf(s, op.values);
    WritesTyped(s, op.values);
    assert Projected(id) !in w;
    assert Projected(id) in WithMaterial(op.values, w, op.extra);
    MaterialNeedsLatest(op.values, w, op.extra, id);
    BatchWrites(s, op, Latest(id));
  }

  // ------------------------------------------------------------------ receipts

  lemma {:induction false} ReceiptWritten(s: Store, values: seq<Collected>, i: nat)
    requires i < |values| && values[i].request.Some?
    ensures Receipt(values[i].request.value) in WritesOf(s, values)
    decreases |values|
  {
    var n := |values| - 1;
    if i < n {
      ReceiptWritten(s, values[..n], i);
    }
  }

  /** A request gets its receipt, and stops waiting, exactly with the commit of its whole batch. */
  lemma {:induction false} ReceiptWithBatch(s: Store, op: Op, i: nat)
    requires Sound(s) && op.Snapshots? && i < |op.values| && op.values[i].request.Some?
    requires Receipt(op.values[i].request.value) !in s
    ensures Receipt(op.values[i].request.value) in Apply(s, op) <==> op.safe && op.room
    ensures op.safe && op.room ==> Input(op.values[i].request.value) !in Apply(s, op)
  {
    ApplySound(s, op);
    if op.safe && op.room {
      ReceiptWritten(s, op.values, i);
      BatchWrites(s, op, Receipt(op.values[i].request.value));
    }
  }

  // ------------------------------------------------- settings and request identity

  /** A settings snapshot is never lost or replaced by an older one. */
  lemma {:induction false} SettingsRise(s: Store, ops: seq<Op>, owner: string, section: string)
    requires Sound(s) && Settings(owner, section) in s
    ensures Sound(Run(s, ops)) && Settings(owner, section) in Run(s, ops)
    ensures s[Settings(owner, section)].at <= Run(s, ops)[Settings(owner, section)].at
    decreases |ops|
  {
    if ops != [] {
      ApplySound(s, ops[0]);
      SettingsStep(s, ops[0], owner, section);
      SettingsRise(Apply(s, ops[0]), ops[1..], owner, section);
    }
  }

  lemma {:induction false} SettingsStep(s: Store, op: Op, owner: string, section: string)
    requires Sound(s) && Settings(owner, section) in s
    ensures var k, t := Settings(owner, section), Apply(s, op);
            Typed(t) && k in t && s[k].at <= t[k].at
  {
    ApplySound(s, op);
    var k := Settings(owner, section);
    match op
    case Snapshots(values, extra, safe, room, evict) =>
      if safe && room {
        WritesTyped(s, values);
        MaterialTyped(values, WritesOf(s, values), extra);
        BatchWrites(s, op, k);
      }
    case _ =>
  }

  /** The identity of a request stays what it was first associated with, until the request is retired. */
  lemma {:induction false} AssociationStays(s: Store, ops: seq<Op>, request: string)
    requires Sound(s) && Request(request) in s && forall i :: 0 <= i < |ops| ==> ops[i] != Retire(request)
    ensures Request(request) in Run(s, ops) && Run(s, ops)[Request(request)] == s[Request(request)]
    decreases |ops|
  {
    if ops != [] {
      ApplySound(s, ops[0]);
      AssociationStep(s, ops[0], request);
      AssociationStays(Apply(s, ops[0]), ops[1..], request);
    }
  }

  lemma {:induction false} AssociationStep(s: Store, op: Op, request: string)
    requires Sound(s) && Request(request) in s && op != Retire(request)
    ensures Request(request) in Apply(s, op) && Apply(s, op)[Request(request)] == s[Request(request)]
  {
    if op.Snapshots? && op.safe && op.room {
      WritesTyped(s, op.values);
      MaterialTyped(op.values, WritesOf(s, op.values), op.extra);
      BatchWrites(s, op, Request(request));
    }
  }

  // ------------------------------------------------------------------ the data

  class Data {
    var store: Store

    constructor ()
      ensures Sound(store) && store == map[]
    {
      store := map[];
    }

    method Commit(writes: Store, remove: set<Key>, room: bool, evict: set<Key>) returns (ok: bool)
      modifies this
      ensures ok == room
      ensures store == if room then Committed(old(store), writes, remove, evict) else old(store)
    {
      if room {
        store := Committed(store, writes, remove, evict);
      }
      ok := room;
    }

    /** The records of the first values of a batch, and one more. */
    method CollectOne(values: seq<Collected>, i: nat, safe: Collected -> bool, writes: Store, remove: set<Key>)
      returns (ok: bool, writes': Store, remove': set<Key>)
      requires i < |values| && writes == WritesOf(store, values[..i]) && remove == Answered(values[..i])
      ensures ok <==> safe(Bounded(values[i]))
      ensures ok ==> writes' == WritesOf(store, values[..i + 1]) && remove' == Answered(values[..i + 1])
    {
      remove' := remove;
      ok, writes' := AddValue(values[i], safe, writes);
      var front := values[..i + 1];
      assert front[..i] == values[..i] && front[i] == values[i];
      AnsweredMore(front);
      if values[i].request.Some? {
        remove' := remove + {Input(values[i].request.value)};
      }
    }

    /** The records of each value, in the order of the batch. */
    method CollectWrites(values: seq<Collected>, safe: Collected -> bool)
      returns (ok: bool, writes: Store, remove: set<Key>)
      ensures ok <==> forall i :: 0 <= i < |values| ==> safe(Bounded(values[i]))
      ensures ok ==> writes == WritesOf(store, values) && remove == Answered(values)
    {
      writes, remove := map[], {};
      var i := 0;
      while i < |values|
        invariant i <= |values|
        invariant forall k :: 0 <= k < i ==> safe(Bounded(values[k]))
        invariant writes == WritesOf(store, values[..i]) && remove == Answered(values[..i])
      {
        ok, writes, remove := CollectOne(values, i, safe, writes, remove);
        if !ok {
          return;
        }
        i := i + 1;
      }
      assert values[..i] == values;
      ok := true;
    }

    method AddValue(value: Collected, safe: Collected -> bool, before: Store) returns (ok: bool, writes: Store)
      ensures ok <==> safe(Bounded(value))
      ensures ok ==> writes == before + WritesOfOne(store, value)
    {
      writes := before;
      var bounded := BoundedOf(value, safe);
      ok := bounded.Ok?;
      if ok {
        var v := bounded.value;
        if Newer(store, v) {
          writes := writes[Latest(v.query) := ValueRecord(v)];
        }
        if v.request.Some? {
          writes := writes[Receipt(v.request.value) := ValueRecord(v)];
        }
      }
    }

    method AddMaterial(values: seq<Collected>, base: Store, extra: seq<(string, nat)>) returns (writes: Store)
      ensures writes == WithMaterial(values, base, extra)
    {
      writes := base;
      var i := 0;
      while i < |extra|
        invariant i <= |extra| && writes == WithMaterial(values, base, extra[..i])
      {
        var (id, material) := extra[i];
        assert extra[..i + 1][..i] == extra[..i];
        if !(InBatch(values, id) && Latest(id) !in writes) {
          writes := writes[Projected(id) := MaterialRecord(material)];
        }
        i := i + 1;
      }
      assert extra[..i] == extra;
    }

    /** One batch. A value that is not safe to keep refuses all of it. */
    method Snapshots(values: seq<Collected>, extra: seq<(string, nat)>, safe: Collected -> bool, room: bool,
                     evict: set<Key>)
      returns (ok: bool)
      modifies this
      ensures var kept := forall i :: 0 <= i < |values| ==> safe(Bounded(values[i]));
              ok == (kept && room) && store == Apply(old(store), Op.Snapshots(values, extra, kept, room, evict))
    {
      var kept, writes, remove := CollectWrites(values, safe);
      if !kept {
        return false;
      }
      writes := AddMaterial(values, writes, extra);
      ok := Commit(writes, remove, room, evict);
    }

    /** A request that was already answered does not wait again. */
    method Remember(request: string, plan: nat, registered: set<string>, room: bool, evict: set<Key>) returns (ok: bool)
      modifies this
      ensures store == Apply(old(store), Op.Remember(request, plan, registered, room, evict))
    {
      ok := Commit(map id | id in registered :: Definition(id) := PlanRecord(plan), {}, room, evict);
      if !ok || Receipt(request) in store {
        return;
      }
      ok := Commit(map[Input(request) := PlanRecord(plan)], {}, room, evict);
    }

    method ForgetInput(request: string)
      modifies this
      ensures store == Apply(old(store), Op.ForgetInput(request))
    {
      store := store - {Input(request)};
    }

    method Retire(request: string)
      modifies this
      ensures store == Apply(old(store), Op.Retire(request))
    {
      var keys := [Receipt(request), Input(request), Request(request)];
      var i := 0;
      while i < |keys|
        invariant i <= |keys| && store == old(store) - set k | k in keys[..i]
      {
        store := store - {keys[i]};
        i := i + 1;
      }
      assert keys[..i] == keys;
    }

    method SettingsWrite(owner: string, section: string, at: nat, content: nat, room: bool, evict: set<Key>)
      returns (ok: bool)
      modifies this
      ensures store == Apply(old(store), Op.SettingsWrite(owner, section, at, content, room, evict))
    {
      var k := Settings(owner, section);
      if k in store && store[k].SettingsRecord? && store[k].at >= at {
        return true;
      }
      ok := Commit(map[k := SettingsRecord(at, content)], {}, room, evict);
    }

    /** Asking again with the same identity succeeds, whatever its time; any other identity conflicts. */
    method Associate(request: string, a: Association, room: bool, evict: set<Key>) returns (r: Result<()>)
      requires Typed(store)
      modifies this
      ensures store == Apply(old(store), Op.Associate(request, a, room, evict))
      ensures Request(request) in old(store) ==>
                r == if Same(old(store)[Request(request)].association, a) then Ok(()) else Err(Conflict)
      ensures Request(request) !in old(store) ==> (r.Ok? <==> room)
    {
      var k := Request(request);
      if k in store {
        var previous := store[k].association.(createdAt := a.createdAt);
        return if previous == a then Ok(()) else Err(Conflict);
      }
      var ok := Commit(map[k := AssociationRecord(a)], {}, room, evict);
      r := if ok then Ok(()) else Err(Capacity);
    }
  }
}
