/**
 Upkeep of the collected store's metadata: what nobody may use any more goes, each kind is cut to
 a count, oldest first, and what is left is cut to its share of the bytes and records. The
 definitions that stored requests name are never touched.
 */
module CollectedUpkeep {

  datatype Kind = Definition | Published | Observed | PolicyRead

  datatype Key = Key(kind: Kind, id: string)

  /** `live` is whether a definition is still visible to its owner, or an entry belongs to a current login. */
  datatype Meta = Meta(seenAt: nat, bytes: nat, live: bool)

  datatype Candidate = Candidate(key: Key, at: nat)

  /** When an entry was last seen; observed entries do not say. */
  function SeenAt(k: Key, m: Meta): nat {
    if k.kind == Observed then 0 else m.seenAt
  }

  const PUBLISHED: nat := 128
  const DEFINITIONS: nat := 64
  const OBSERVED: nat := 32

  function Max(a: nat, b: nat): nat {
    if a < b then b else a
  }

  function Minus(a: nat, b: nat): nat {
    if a < b then 0 else a - b
  }

  // ------------------------------------------------------------------- sorting

  predicate Sorted(s: seq<Candidate>) {
    forall i, j :: 0 <= i < j < |s| ==> s[i].at <= s[j].at
  }

  /** After the entries of the same age, so that the order is stable. */
  function Insert(c: Candidate, s: seq<Candidate>): seq<Candidate> {
    if s == [] || c.at < s[0].at then [c] + s else [s[0]] + Insert(c, s[1..])
  }

  function SortByAge(s: seq<Candidate>): seq<Candidate> {
    if s == [] then [] else Insert(s[|s| - 1], SortByAge(s[..|s| - 1]))
  }

  lemma {:induction false} InsertHolds(c: Candidate, s: seq<Candidate>)
    ensures |Insert(c, s)| == |s| + 1
    ensures forall x :: x in Insert(c, s) <==> x == c || x in s
  {
    if !(s == [] || c.at < s[0].at) {
      InsertHolds(c, s[1..]);
      assert s == [s[0]] + s[1..];
    }
  }

  lemma {:induction false} InsertSorted(c: Candidate, s: seq<Candidate>)
    requires Sorted(s)
    ensures Sorted(Insert(c, s))
  {
    if !(s == [] || c.at < s[0].at) {
      var t := Insert(c, s[1..]);
      InsertSorted(c, s[1..]);
      InsertHolds(c, s[1..]);
      forall i | 0 <= i < |t|
        ensures s[0].at <= t[i].at
      {
        assert t[i] in t;
        if t[i] != c {
          var j :| 0 <= j < |s[1..]| && s[1..][j] == t[i];
          assert s[j + 1] == t[i];
        }
      }
    }
  }

  /** Sorting keeps the candidates and puts the oldest first. */
  lemma {:induction false} SortHolds(s: seq<Candidate>)
    ensures Sorted(SortByAge(s)) && |SortByAge(s)| == |s|
    ensures forall x :: x in SortByAge(s) <==> x in s
    decreases |s|
  {
    if s != [] {
      var n := |s| - 1;
      SortHolds(s[..n]);
      InsertSorted(s[n], SortByAge(s[..n]));
      InsertHolds(s[n], SortByAge(s[..n]));
      assert s == s[..n] + [s[n]];
    }
  }

  predicate Distinct(s: seq<Candidate>) {
    forall i, j :: 0 <= i < j < |s| ==> s[i].key != s[j].key
  }

  function KeysOf(s: seq<Candidate>): set<Key> {
    set i | 0 <= i < |s| :: s[i].key
  }

  lemma DistinctMore(s: seq<Candidate>)
    requires s != []
    ensures Distinct(s) <==> Distinct(s[..|s| - 1]) && s[|s| - 1].key !in KeysOf(s[..|s| - 1])
  {
    var n := |s| - 1;
    var front := s[..n];
    assert forall i :: 0 <= i < n ==> front[i] == s[i];
    if s[n].key !in KeysOf(front) {
      assert forall i :: 0 <= i < n ==> front[i].key in KeysOf(front);
    }
  }

  lemma {:induction false} KeysCount(s: seq<Candidate>)
    ensures |KeysOf(s)| <= |s|
    ensures Distinct(s) <==> |KeysOf(s)| == |s|
    decreases |s|
  {
    if s == [] {
      assert KeysOf(s) == {};
    } else {
      var front := s[..|s| - 1];
      KeysCount(front);
      KeysMore(s);
      DistinctMore(s);
      var last := s[|s| - 1].key;
      if last in KeysOf(front) {
        assert KeysOf(s) == KeysOf(front);
      } else {
        assert |KeysOf(front) + {last}| == |KeysOf(front)| + 1;
      }
    }
  }

  lemma KeysMore(s: seq<Candidate>)
    requires s != []
    ensures KeysOf(s) == KeysOf(s[..|s| - 1]) + {s[|s| - 1].key}
  {
    var n := |s| - 1;
    assert forall i :: 0 <= i < n ==> s[..n][i] == s[i];
    forall k | k in KeysOf(s)
      ensures k in KeysOf(s[..n]) + {s[n].key}
    {
      var i :| 0 <= i < |s| && s[i].key == k;
      assert i < n ==> s[..n][i].key == k;
    }
    forall k | k in KeysOf(s[..n])
      ensures k in KeysOf(s)
    {
      var i :| 0 <= i < n && s[..n][i].key == k;
      assert s[i].key == k;
    }
  }

  lemma SameKeys(a: seq<Candidate>, b: seq<Candidate>)
    requires forall c :: c in a ==> c in b
    ensures KeysOf(a) <= KeysOf(b)
  {
    forall k | k in KeysOf(a)
      ensures k in KeysOf(b)
    {
      var i :| 0 <= i < |a| && a[i].key == k;
      assert a[i] in b;
      var j :| 0 <= j < |b| && b[j] == a[i];
      assert b[j].key == k;
    }
  }

  lemma {:induction false} SortKeeps(s: seq<Candidate>)
    requires Distinct(s)
    ensures Sorted(SortByAge(s)) && KeysOf(SortByAge(s)) == KeysOf(s) && |SortByAge(s)| == |s| && Distinct(SortByAge(s))
    ensures forall c :: c in SortByAge(s) <==> c in s
  {
    SortHolds(s);
    SameKeys(s, SortByAge(s));
    SameKeys(SortByAge(s), s);
    KeysCount(s);
    KeysCount(SortByAge(s));
  }

  /** Whatever goes, everything before it that may go does too. */
  predicate FrontFirst(s: seq<Candidate>, gone: set<Key>, spared: set<string>) {
    forall i, j :: 0 <= i < j < |s| && s[j].key in gone && s[i].key.id !in spared ==> s[i].key in gone
  }

  /** In order of age, that leaves nothing behind that is older than what went. */
  lemma OldestGo(s: seq<Candidate>, gone: set<Key>, spared: set<string>, r: Key, k: Key)
    requires Sorted(s) && FrontFirst(s, gone, spared) && gone <= KeysOf(s) && r in gone
    requires k in KeysOf(s) && k !in gone && k.id !in spared
    ensures exists i, j :: 0 <= i < j < |s| && s[i].key == r && s[j].key == k && s[i].at <= s[j].at
  {
    var i :| 0 <= i < |s| && s[i].key == r;
    var j :| 0 <= j < |s| && s[j].key == k;
    assert i != j;
  }

  /** The same, said of the ages. */
  lemma OlderGone(s: seq<Candidate>, gone: set<Key>, spared: set<string>, r: Key, k: Key, a: nat, b: nat)
    requires Sorted(s) && FrontFirst(s, gone, spared) && gone <= KeysOf(s) && r in gone
    requires k in KeysOf(s) && k !in gone && k.id !in spared
    requires forall c :: c in s && c.key == r ==> c.at == a
    requires forall c :: c in s && c.key == k ==> c.at == b
    ensures a <= b
  {
    OldestGo(s, gone, spared, r, k);
    var i, j :| 0 <= i < j < |s| && s[i].key == r && s[j].key == k && s[i].at <= s[j].at;
    assert s[i] in s && s[j] in s;
  }

  /** When an observed value was last collected. */
  function CollectedAt(latest: map<string, nat>, id: string): nat {
    if id in latest then latest[id] else 0
  }

  // ----------------------------------------------------------- bytes of metadata

  ghost function Total(m: map<Key, Meta>): nat
    decreases |m|
  {
    if m == map[] then 0
    else
      var k :| k in m;
      m[k].bytes + Total(m - {k})
  }

  lemma {:induction false} TotalWithout(m: map<Key, Meta>, k: Key)
    requires k in m
    ensures Total(m) == m[k].bytes + Total(m - {k})
    decreases |m|
  {
    var j :| j in m && Total(m) == m[j].bytes + Total(m - {j});
    if j != k {
      assert |m - {j}| < |m|;
      assert |m - {k}| < |m|;
      TotalWithout(m - {j}, k);
      TotalWithout(m - {k}, j);
      assert m - {j} - {k} == m - {k} - {j};
    }
  }

  // -------------------------------------------------------------------- the store

  class Store {
    var meta: map<Key, Meta>
    var latest: map<string, nat>            // the collection time of each latest value
    var requests: map<string, string>       // the query each stored request names
    var inputs: set<string>
    var settings: set<(string, string)>
    var others: nat                         // every other record
    var pinned: set<string>
    const fails: nat -> bool
    var calls: nat

    constructor (fails: nat -> bool, meta: map<Key, Meta>, latest: map<string, nat>, requests: map<string, string>,
                 inputs: set<string>, settings: set<(string, string)>, others: nat, pinned: set<string>)
      ensures this.meta == meta && this.latest == latest && this.requests == requests && this.inputs == inputs
      ensures this.settings == settings && this.others == others && this.pinned == pinned
    {
      this.fails, this.meta, this.latest, this.requests, this.inputs := fails, meta, latest, requests, inputs;
      this.settings, this.others, this.pinned, calls := settings, others, pinned, 0;
    }

    function Protected(): set<string>
      reads `requests
    {
      requests.Values
    }

    function Records(): nat
      reads `meta, `latest, `requests, `inputs, `settings, `others
    {
      |meta| + |latest| + |requests| + |inputs| + |settings| + others
    }

    /** The ids of a kind. */
    function OfKind(kind: Kind): set<string>
      reads `meta
    {
      set k | k in meta && k.kind == kind :: k.id
    }

    method RemoveMeta(k: Key, withLatest: bool) returns (ok: bool)
      modifies `meta, `latest, `calls
      ensures ok ==> meta == old(meta) - {k} && latest == old(latest) - if withLatest then {k.id} else {}
      ensures !ok ==> (meta == old(meta) || meta == old(meta) - {k}) && latest == old(latest)
    {
      if fails(calls) {
        return false;
      }
      meta := meta - {k};
      if withLatest {
        if fails(calls + 1) {
          return false;
        }
        latest := latest - {k.id};
      }
      calls := calls + 2;
      ok := true;
    }

    /** All entries that `want` asks for, with the age that `age` gives them. */
    method Scan(want: (Key, Meta) -> bool, age: (Key, Meta) -> nat) returns (s: seq<Candidate>)
      ensures Distinct(s)
      ensures KeysOf(s) == set k | k in meta && want(k, meta[k])
      ensures forall c :: c in s ==> c.key in meta && c.at == age(c.key, meta[c.key])
    {
      s := [];
      var todo := meta.Keys;
      while todo != {}
        invariant todo <= meta.Keys
        invariant KeysOf(s) == set k | k in meta && want(k, meta[k]) && k !in todo
        invariant Distinct(s)
        invariant forall c :: c in s ==> c.key in meta && c.at == age(c.key, meta[c.key])
        decreases todo
      {
        var k :| k in todo;
        ghost var was := s;
        todo := todo - {k};
        if want(k, meta[k]) {
          assert k !in KeysOf(s);
          assert forall i :: 0 <= i < |s| ==> s[i].key in KeysOf(s);
          s := s + [Candidate(k, age(k, meta[k]))];
          assert s[..|s| - 1] == was;
          KeysMore(s);
        }
      }
    }

    /** Those entries, the oldest first. */
    method ScanByAge(want: (Key, Meta) -> bool, age: (Key, Meta) -> nat) returns (s: seq<Candidate>)
      ensures Distinct(s) && Sorted(s)
      ensures KeysOf(s) == (set k | k in meta && want(k, meta[k])) && |s| == |KeysOf(s)|
      ensures forall c :: c in s ==> c.key in meta && c.at == age(c.key, meta[c.key])
    {
      var found := Scan(want, age);
      SortKeeps(found);
      s := SortByAge(found);
      KeysCount(s);
    }

    /** `gone` is what was removed from the metadata, and from the latest values with it. */
    predicate Removed(meta0: map<Key, Meta>, latest0: map<string, nat>, gone: set<Key>, withLatest: bool)
      reads `meta, `latest
    {
      meta == meta0 - gone && latest == latest0 - if withLatest then IdsOf(gone) else {}
    }

    method RemoveNext(k: Key, withLatest: bool, ghost meta0: map<Key, Meta>, ghost latest0: map<string, nat>,
                      ghost gone: set<Key>)
      returns (ok: bool, ghost next: set<Key>)
      requires Removed(meta0, latest0, gone, withLatest)
      modifies `meta, `latest, `calls
      ensures next == gone || next == gone + {k}
      ensures meta == meta0 - next
      ensures ok ==> next == gone + {k} && Removed(meta0, latest0, next, withLatest)
    {
      IdsMore(gone, k);
      ok := RemoveMeta(k, withLatest);
      next := if meta == meta0 - gone && !ok then gone else gone + {k};
    }

    /**
     Removes from the front until `excess` entries went, skipping the spared ones. Either exactly
     the excess went, or everything that may go.
     */
    method RemoveOldest(s: seq<Candidate>, excess: nat, spared: set<string>, withLatest: bool)
      returns (ok: bool, ghost gone: set<Key>)
      requires Distinct(s)
      modifies `meta, `latest, `calls
      ensures gone <= KeysOf(s) && forall k :: k in gone ==> k.id !in spared
      ensures meta == old(meta) - gone
      ensures ok ==> Removed(old(meta), old(latest), gone, withLatest)
      ensures FrontFirst(s, gone, spared)
      ensures ok ==> |gone| == excess || (|gone| < excess && forall k :: k in KeysOf(s) && k.id !in spared ==>
          k in gone)
    {
      gone := {};
      var left: nat := excess;
      var i := 0;
      while i < |s| && left > 0
        invariant i <= |s| && left + |gone| == excess
        invariant gone <= KeysOf(s) && forall k :: k in gone ==> k.id !in spared
        invariant forall j :: 0 <= j < i && s[j].key.id !in spared ==> s[j].key in gone
        invariant forall j :: i <= j < |s| ==> s[j].key !in gone
        invariant Removed(old(meta), old(latest), gone, withLatest)
      {
        var k := s[i].key;
        assert k in KeysOf(s);
        if k.id !in spared {
          ok, gone := RemoveNext(k, withLatest, old(meta), old(latest), gone);
          if !ok {
            return;
          }
          left := left - 1;
        }
        i := i + 1;
      }
      ok := true;
    }

    // ---------------------------------------------------------------- the steps

    /** Nothing but the removal of entries of one kind, none of them a protected definition. */
    twostate predicate OnlyRemoves(kind: Kind)
      reads this
    {
      && requests == old(requests) && meta.Keys <= old(meta).Keys
      && (forall k :: k in meta ==> meta[k] == old(meta)[k])
      && (forall k :: k in old(meta) && k !in meta ==> k.kind == kind && (kind == Definition ==> k.id !in Protected()))
    }

    method DropSettings(current: set<string>) returns (ok: bool)
      modifies `settings, `calls
      ensures settings <= old(settings)
      ensures ok ==> settings == set k | k in old(settings) && k.0 in current
    {
      var todo := settings;
      while todo != {}
        invariant todo <= settings <= old(settings)
        invariant forall k :: k in settings && k !in todo ==> k.0 in current
        invariant forall k :: k in old(settings) && k.0 in current ==> k in settings
        decreases todo
      {
        var k :| k in todo;
        todo := todo - {k};
        if k.0 !in current {
          if fails(calls) {
            return false;
          }
          calls := calls + 1;
          settings := settings - {k};
        }
      }
      ok := true;
    }

    method KeepPublished() returns (ok: bool)
      modifies `meta, `latest, `calls
      ensures OnlyRemoves(Published)
      ensures ok ==> |OfKind(Published)| <= Max(PUBLISHED, |Protected()|)
      ensures ok ==> forall k :: k in meta && k.kind == Published ==> meta[k].live
      ensures forall r, k :: r in old(meta) && r !in meta && old(meta)[r].live
                             && k in meta && k.kind == Published && meta[k].live && k.id !in Protected() ==>
                               old(meta)[r].seenAt <= meta[k].seenAt
    {
      var dead := Scan((k: Key, m: Meta) => k.kind == Published && !m.live, (k: Key, m: Meta) => m.seenAt);
      ghost var gone;
      KeysCount(dead);
      ok, gone := RemoveOldest(dead, |dead|, {}, false);
      if !ok {
        return;
      }
      SubsetFull(gone, KeysOf(dead));
      var kept := ScanByAge((k: Key, m: Meta) => k.kind == Published && m.live, (k: Key, m: Meta) => m.seenAt);
      ghost var before := meta;
      ok, gone := RemoveOldest(kept, Minus(|kept|, PUBLISHED), Protected(), false);
      forall r, k | r in before && r !in meta
                    && k in meta && k.kind == Published && meta[k].live && k.id !in Protected()
        ensures before[r].seenAt <= meta[k].seenAt
      {
        OlderGone(kept, gone, Protected(), r, k, before[r].seenAt, meta[k].seenAt);
      }
      if ok {
        PublishedCount(KeysOf(kept), gone, Protected());
        assert forall k :: k in meta && k.kind == Published ==> k in before && k in KeysOf(kept);
        assert OfKind(Published) == IdsOf(KeysOf(kept) - gone);
      }
    }

    /** Definitions that their owner may not see any more lose their pin, and go unless a request names them. */
    method DropInvisible() returns (ok: bool)
      modifies `meta, `latest, `pinned, `calls
      ensures OnlyRemoves(Definition) && pinned <= old(pinned)
      ensures ok ==> forall k :: k in meta && k.kind == Definition && !meta[k].live ==>
          k.id in Protected()
          && k.id !in pinned
    {
      var dead := Scan((k: Key, m: Meta) => k.kind == Definition && !m.live, (k: Key, m: Meta) => m.seenAt);
      ghost var gone: set<Key> := {};
      var spared := Protected();
      var i := 0;
      while i < |dead|
        invariant i <= |dead| && pinned <= old(pinned)
        invariant meta == old(meta) - gone && gone <= KeysOf(dead) && forall k :: k in gone ==> k.id !in spared
        invariant forall j :: 0 <= j < i ==>
            dead[j].key.id !in pinned
            && (dead[j].key.id in spared || dead[j].key in gone)
      {
        var k := dead[i].key;
        assert k in KeysOf(dead);
        pinned := pinned - {k.id};
        if k.id !in spared {
          ghost var before := meta;
          ok := RemoveMeta(k, true);
          gone := if !ok && meta == before then gone else gone + {k};
          if !ok {
            return;
          }
        }
        i := i + 1;
      }
      assert forall k :: k in meta && k.kind == Definition && !meta[k].live ==> k in KeysOf(dead);
      ok := true;
    }

    /** What the count of definitions is about: visible, unpinned, unprotected and inactive ones. */
    function Idle(active: set<string>): set<Key>
      reads `meta, `pinned, `requests
    {
      set k | k in meta && k.kind == Definition && meta[k].live && k.id !in pinned && k.id !in Protected()
          && k.id !in active
    }

    method KeepDefinitions(active: set<string>) returns (ok: bool)
      modifies `meta, `latest, `calls
      ensures OnlyRemoves(Definition)
      ensures ok ==> |Idle(active)| <= DEFINITIONS
      ensures forall r, k :: r in old(meta) && r !in meta && k in Idle(active) ==> old(meta)[r].seenAt <= meta[k].seenAt
    {
      ghost var before := meta;
      var pins, named := pinned, Protected();
      var kept := ScanByAge((k: Key, m: Meta) =>
                              k.kind == Definition && m.live && k.id !in pins && k.id !in named && k.id !in active,
                            (k: Key, m: Meta) => m.seenAt);
      assert KeysOf(kept) == Idle(active);
      ghost var gone;
      ok, gone := RemoveOldest(kept, Minus(|kept|, DEFINITIONS), {}, true);
      assert Idle(active) == KeysOf(kept) - gone;
      forall r, k | r in before && r !in meta && k in Idle(active)
        ensures before[r].seenAt <= meta[k].seenAt
      {
        OlderGone(kept, gone, {}, r, k, before[r].seenAt, meta[k].seenAt);
      }
      assert |KeysOf(kept) - gone| == |KeysOf(kept)| - |gone|;
      if ok && |gone| != Minus(|kept|, DEFINITIONS) {
        SubsetFull(gone, KeysOf(kept));
      }
    }

    function Unwatched(active: set<string>): set<Key>
      reads `meta
    {
      set k | k in meta && k.kind == Observed && k.id !in active
    }

    /** Observed entries go in the order in which their values were last collected. */
    method KeepObserved(active: set<string>) returns (ok: bool)
      modifies `meta, `latest, `calls
      ensures OnlyRemoves(Observed)
      ensures ok ==> |Unwatched(active)| <= OBSERVED
      ensures forall r, k :: r in old(meta) && r !in meta && k in Unwatched(active) ==>
                               CollectedAt(old(latest), r.id) <= CollectedAt(old(latest), k.id)
    {
      var values := latest;
      var kept := ScanByAge((k: Key, m: Meta) => k.kind == Observed && k.id !in active,
                            (k: Key, m: Meta) => CollectedAt(values, k.id));
      ghost var before := meta;
      assert KeysOf(kept) == Unwatched(active);
      ghost var gone;
      ok, gone := RemoveOldest(kept, Minus(|kept|, OBSERVED), {}, true);
      assert Unwatched(active) == KeysOf(kept) - gone;
      forall r, k | r in before && r !in meta && k in Unwatched(active)
        ensures CollectedAt(values, r.id) <= CollectedAt(values, k.id)
      {
        OlderGone(kept, gone, {}, r, k, CollectedAt(values, r.id), CollectedAt(values, k.id));
      }
      assert |KeysOf(kept) - gone| == |KeysOf(kept)| - |gone|;
      if ok && |gone| != Minus(|kept|, OBSERVED) {
        SubsetFull(gone, KeysOf(kept));
      }
    }

    method ForgetInputs(active: set<string>) returns (ok: bool)
      modifies `inputs, `calls
      ensures inputs <= old(inputs)
      ensures ok ==> inputs == old(inputs) * active
    {
      var todo := inputs;
      while todo != {}
        invariant todo <= inputs <= old(inputs)
        invariant forall r :: r in inputs && r !in todo ==> r in active
        invariant forall r :: r in old(inputs) && r in active ==> r in inputs
        decreases todo
      {
        var r :| r in todo;
        todo := todo - {r};
        if r !in active {
          if fails(calls) {
            return false;
          }
          calls := calls + 1;
          inputs := inputs - {r};
        }
      }
      ok := true;
    }

    method Weigh() returns (total: nat)
      ensures total == Total(meta)
    {
      total := 0;
      var rest := meta;
      while rest != map[]
        invariant total + Total(rest) == Total(meta)
        decreases |rest|
      {
        var k :| k in rest;
        TotalWithout(rest, k);
        total := total + rest[k].bytes;
        assert |rest - {k}| < |rest|;
        rest := rest - {k};
      }
    }

    /** Never reclaimed: named by a request, pinned or active. */
    predicate Kept(k: Key, active: set<string>)
      reads `pinned, `requests
    {
      k.id in Protected() || k.id in pinned || k.id in active
    }

    predicate Enough(total: nat, bytes: nat, records: nat)
      reads `meta, `latest, `requests, `inputs, `settings, `others
    {
      total <= bytes / 2 && Records() <= Minus(records, Max(records / 4, 8))
    }

    /** One reclaimed entry, with the bytes that are left. */
    method ReclaimOne(k: Key, total: nat) returns (ok: bool, rest: nat, ghost gone: set<Key>)
      requires k in meta && total == Total(meta)
      modifies `meta, `latest, `calls
      ensures meta == old(meta) - gone && gone <= {k}
      ensures ok ==> gone == {k} && rest == Total(meta)
    {
      TotalWithout(meta, k);
      rest := Minus(total, meta[k].bytes);
      ghost var before := meta;
      ok := RemoveMeta(k, true);
      gone := if !ok && meta == before then {} else {k};
    }

    method ReclaimEach(s: seq<Candidate>, weight: nat, bytes: nat, records: nat)
      returns (ok: bool, ghost gone: set<Key>)
      requires Distinct(s) && weight == Total(meta) && forall j :: 0 <= j < |s| ==> s[j].key in meta
      modifies `meta, `latest, `calls
      ensures meta == old(meta) - gone && gone <= KeysOf(s)
      ensures ok ==> Enough(Total(meta), bytes, records) || gone == KeysOf(s)
      ensures FrontFirst(s, gone, {})
    {
      var total := weight;
      gone := {};
      var i := 0;
      while i < |s| && !Enough(total, bytes, records)
        invariant i <= |s| && total == Total(meta)
        invariant meta == old(meta) - gone && gone <= KeysOf(s)
        invariant forall j :: 0 <= j < i ==> s[j].key in gone
        invariant forall j :: i <= j < |s| ==> s[j].key !in gone
      {
        ghost var one;
        assert s[i].key in KeysOf(s);
        ok, total, one := ReclaimOne(s[i].key, total);
        gone := gone + one;
        if !ok {
          return;
        }
        i := i + 1;
      }
      ok := true;
    }

    /** Reclaims what is not kept, oldest first, until bytes and records are down to their share. */
    method Reclaim(active: set<string>, bytes: nat, records: nat) returns (ok: bool)
      modifies `meta, `latest, `calls
      ensures meta.Keys <= old(meta).Keys && forall k :: k in meta ==> meta[k] == old(meta)[k]
      ensures forall k :: k in old(meta) && Kept(k, active) ==> k in meta
      ensures ok ==> Enough(Total(meta), bytes, records) || forall k :: k in meta ==> Kept(k, active)
      ensures forall r, k :: r in old(meta) && r !in meta && k in meta && !Kept(k, active) ==>
                               SeenAt(r, old(meta)[r]) <= SeenAt(k, meta[k])
    {
      ghost var before := meta;
      var pins, named := pinned, Protected();
      var total := Weigh();
      var s := ScanByAge((k: Key, m: Meta) => !(k.id in named || k.id in pins || k.id in active),
                         SeenAt);
      assert forall j :: 0 <= j < |s| ==> s[j].key in KeysOf(s);
      ghost var gone;
      ok, gone := ReclaimEach(s, total, bytes, records);
      forall r, k | r in before && r !in meta && k in meta && !Kept(k, active)
        ensures SeenAt(r, before[r]) <= SeenAt(k, meta[k])
      {
        OlderGone(s, gone, {}, r, k, SeenAt(r, before[r]), SeenAt(k, meta[k]));
      }
    }

    /**
     One maintenance. A definition that a stored request names is never removed, whether or not
     the maintenance gets through; when it does, every bound holds at the end.
     */
    method Maintain(current: set<string>, activeInputs: set<string>, active: set<string>, bytes: nat, records: nat)
      returns (ok: bool)
      modifies this
      ensures requests == old(requests) && meta.Keys <= old(meta).Keys && forall k :: k in meta ==>
          meta[k] == old(meta)[k]
      ensures forall k :: k in old(meta) && k.kind == Definition && k.id in Protected() ==> k in meta
      ensures ok ==> |Idle(active)| <= DEFINITIONS && |Unwatched(active)| <= OBSERVED
      ensures ok ==> |OfKind(Published)| <= Max(PUBLISHED, |Protected()|)
      ensures ok ==> forall k :: k in meta && k.kind == Published ==> meta[k].live
      ensures ok ==> inputs <= activeInputs && forall k :: k in settings ==> k.0 in current
      ensures ok ==> Enough(Total(meta), bytes, records) || forall k :: k in meta ==> Kept(k, active)
    {
      ok := DropSettings(current);
      if ok {
        ok := KeepPublished();
      }
      ghost var published := OfKind(Published);
      if ok {
        ok := TrimRest(activeInputs, active);
      }
      ghost var idle, unwatched := Idle(active), Unwatched(active);
      if ok {
        ok := Reclaim(active, bytes, records);
        SubsetCount(Idle(active), idle);
        SubsetCount(Unwatched(active), unwatched);
        SubsetCount(OfKind(Published), published);
      }
    }

    /** Definitions, observed entries and inputs, each cut down in turn. */
    method TrimRest(activeInputs: set<string>, active: set<string>) returns (ok: bool)
      modifies `meta, `latest, `pinned, `inputs, `calls
      ensures meta.Keys <= old(meta).Keys && forall k :: k in meta ==> meta[k] == old(meta)[k]
      ensures forall k :: k in old(meta) && k !in meta ==>
                            k.kind in {Definition, Observed} && (k.kind == Definition ==> k.id !in Protected())
      ensures ok ==> |Idle(active)| <= DEFINITIONS && |Unwatched(active)| <= OBSERVED && inputs <= activeInputs
    {
      ok := DropInvisible();
      if ok {
        ok := KeepDefinitions(active);
      }
      ghost var idle := Idle(active);
      if ok {
        ok := KeepObserved(active);
        SubsetCount(Idle(active), idle);
      }
      if ok {
        ok := ForgetInputs(activeInputs);
      }
    }
  }

  lemma SubsetFull(a: set<Key>, b: set<Key>)
    requires a <= b && (|a| == |b| || forall k :: k in b ==> k in a)
    ensures a == b
  {
    if |a| == |b| {
      assert |b - a| == 0;
    }
  }

  lemma {:induction false} IdsCount(keys: set<Key>)
    ensures |IdsOf(keys)| <= |keys|
    decreases keys
  {
    if keys != {} {
      var k :| k in keys;
      IdsCount(keys - {k});
      IdsMore(keys - {k}, k);
      assert keys - {k} + {k} == keys;
    }
  }

  /** What is left of the published entries: the count that is kept, or protected ones only. */
  lemma PublishedCount(all: set<Key>, gone: set<Key>, spared: set<string>)
    requires gone <= all
    requires |gone| == Minus(|all|, PUBLISHED) || forall k :: k in all && k.id !in spared ==> k in gone
    ensures |IdsOf(all - gone)| <= Max(PUBLISHED, |spared|)
  {
    assert |all - gone| == |all| - |gone|;
    IdsCount(all - gone);
    if |gone| != Minus(|all|, PUBLISHED) {
      assert IdsOf(all - gone) <= spared;
      SubsetCount(IdsOf(all - gone), spared);
    }
  }

  lemma SubsetCount<T>(a: set<T>, b: set<T>)
    requires a <= b
    ensures |a| <= |b|
  {
    assert |b - a| == |b| - |a|;
  }

  function IdsOf(keys: set<Key>): set<string> {
    set k | k in keys :: k.id
  }

  lemma IdsMore(keys: set<Key>, k: Key)
    ensures IdsOf(keys + {k}) == IdsOf(keys) + {k.id}
  {
    assert k in keys + {k};
    assert forall j :: j in keys ==> j in keys + {k};
  }
}
