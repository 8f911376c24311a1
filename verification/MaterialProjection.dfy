/**
 Projection of journal facts onto the sets a pass accumulates. One fact is projected at a
 time, in scan, association or receipt order; `Closed` says what any order amounts to.
 */
module MaterialProjection {
  import opened MaterialWorld

  const LIMIT := 32768

  datatype Error = Untrusted | Capacity | Conflict | Denied | Storage

  datatype Result<+T> = Ok(value: T) | Err(error: Error)

  /** The sets that decide deletion. */
  datatype Facts = Facts(candidates: map<Path, Digest>, retained: set<Path>, interpreters: set<Digest>)

  /** One fact as it is projected: `release` is `reclaimable && !communicating` at that moment. */
  datatype Projected = Projected(references: map<Path, Digest>, interpreters: set<Digest>, release: bool)

  /** The inventoried part of a reference map. */
  function Listed(references: map<Path, Digest>, inventory: set<Path>): map<Path, Digest> {
    map q | q in references && q in inventory :: references[q]
  }

  predicate Agree(a: map<Path, Digest>, b: map<Path, Digest>) {
    forall q :: q in a && q in b ==> a[q] == b[q]
  }

  predicate Fits(f: Facts) {
    |f.retained| <= LIMIT && |f.candidates| <= LIMIT && |f.interpreters| <= LIMIT
  }

  function Named(candidates: map<Path, Digest>, digests: set<Digest>): set<Path> {
    set q | q in candidates && candidates[q] in digests
  }

  /** The effect of one fact on the sets, before the capacity check. */
  function Grow(f: Facts, x: Projected, inventory: set<Path>): Facts {
    if x.release then
      var added := Listed(x.references, inventory);
      Facts(f.candidates + added, f.retained + Named(added, f.interpreters), f.interpreters)
    else
      var news := x.interpreters - f.interpreters;
      Facts(f.candidates, f.retained + x.references.Keys + Named(f.candidates, news), f.interpreters + x.interpreters)
  }

  function Project(f: Facts, x: Projected, inventory: set<Path>): Result<Facts> {
    if x.release && !Agree(f.candidates, Listed(x.references, inventory)) then Err(Untrusted)
    else if !Fits(Grow(f, x, inventory)) then Err(Capacity)
    else Ok(Grow(f, x, inventory))
  }

  /** A candidate that is an interpreter of a retained request is itself retained. */
  ghost predicate Closed(f: Facts) {
    forall q :: q in f.candidates && f.candidates[q] in f.interpreters ==> q in f.retained
  }

  lemma GrowClosed(f: Facts, x: Projected, inventory: set<Path>)
    requires Closed(f)
    requires x.release ==> Agree(f.candidates, Listed(x.references, inventory))
    ensures Closed(Grow(f, x, inventory))
    ensures f.retained <= Grow(f, x, inventory).retained
    ensures f.interpreters <= Grow(f, x, inventory).interpreters
  {
  }

  // -------------------------------------------------------------- the loops

  /** The sets after the listed references outside `todo` have been offered. */
  function Offered(f: Facts, listed: map<Path, Digest>, todo: set<Path>): Facts {
    var done := listed - todo;
    Facts(f.candidates + done, f.retained + Named(done, f.interpreters), f.interpreters)
  }

  /** One more listed reference: how the accumulated sets change. */
  lemma ExtendOffered(f: Facts, listed: map<Path, Digest>, todo: set<Path>, path: Path)
    requires path in todo && todo <= listed.Keys
    ensures var was := Offered(f, listed, todo);
            Offered(f, listed, todo - {path}) == Facts(was.candidates[path := listed[path]],
              if listed[path] in f.interpreters then was.retained + {path} else was.retained, f.interpreters)
    ensures path in Offered(f, listed, todo).candidates <==> path in f.candidates
    ensures path in f.candidates ==> Offered(f, listed, todo).candidates[path] == f.candidates[path]
  {
    var done, next := listed - todo, listed - (todo - {path});
    assert next == done[path := listed[path]];
    assert f.candidates + next == (f.candidates + done)[path := listed[path]];
    assert Named(next, f.interpreters)
        == Named(done, f.interpreters) + (if listed[path] in f.interpreters then {path} else {});
  }

  lemma OfferedAll(f: Facts, listed: map<Path, Digest>)
    ensures Offered(f, listed, listed.Keys) == f
    ensures Offered(f, listed, {}) ==
            Facts(f.candidates + listed, f.retained + Named(listed, f.interpreters), f.interpreters)
  {
    assert listed - listed.Keys == map[];
    assert listed - {} == listed;
    assert Named(map[], f.interpreters) == {};
    assert f.candidates + map[] == f.candidates;
  }

  /** A released fact, reference by reference: a path already bound to another digest is untrusted. */
  method Offer(f: Facts, listed: map<Path, Digest>) returns (r: Result<Facts>)
    ensures r == if Agree(f.candidates, listed) then Ok(Offered(f, listed, {})) else Err(Untrusted)
  {
    var sofar := f;
    var todo := listed.Keys;
    OfferedAll(f, listed);
    while todo != {}
      invariant todo <= listed.Keys
      invariant sofar == Offered(f, listed, todo)
      invariant forall q :: q in f.candidates && q in listed && q !in todo ==> f.candidates[q] == listed[q]
      decreases |todo|
    {
      var path :| path in todo;
      var digest := listed[path];
      ExtendOffered(f, listed, todo, path);
      if digest in sofar.interpreters {
        sofar := sofar.(retained := sofar.retained + {path});
      }
      if path in sofar.candidates && sofar.candidates[path] != digest {
        return Err(Untrusted);
      }
      sofar := sofar.(candidates := sofar.candidates[path := digest]);
      todo := todo - {path};
    }
    return Ok(sofar);
  }

  /** A held fact: only interpreters not yet known are matched against the candidates. */
  method Hold(f: Facts, references: map<Path, Digest>, interpreters: set<Digest>) returns (r: Facts)
    ensures r.candidates == f.candidates && r.interpreters == f.interpreters + interpreters
    ensures r.retained == f.retained + references.Keys + Named(f.candidates, interpreters - f.interpreters)
  {
    var retained := f.retained + references.Keys;
    var known := f.interpreters;
    var news := interpreters - known;
    if news != {} {
      var todo := f.candidates.Keys;
      ghost var base := retained;
      while todo != {}
        invariant todo <= f.candidates.Keys
        invariant retained == base + (set q | q in f.candidates && q !in todo && f.candidates[q] in news)
        decreases |todo|
      {
        var path :| path in todo;
        if f.candidates[path] in news {
          retained := retained + {path};
        }
        todo := todo - {path};
      }
      known := known + news;
    }
    assert forall d :: d in interpreters && d !in f.interpreters ==> d in news;
    assert known == f.interpreters + interpreters;
    return Facts(f.candidates, retained, known);
  }

  /** The projection as the service runs it, with its capacity check last. */
  method ProjectFact(f: Facts, x: Projected, inventory: set<Path>) returns (r: Result<Facts>)
    ensures r == Project(f, x, inventory)
  {
    var grown: Facts;
    if x.release {
      OfferedAll(f, Listed(x.references, inventory));
      var offered := Offer(f, Listed(x.references, inventory));
      if offered.Err? {
        return offered;
      }
      grown := offered.value;
    } else {
      grown := Hold(f, x.references, x.interpreters);
    }
    assert grown == Grow(f, x, inventory);
    if |grown.retained| > LIMIT || |grown.candidates| > LIMIT || |grown.interpreters| > LIMIT {
      return Err(Capacity);
    }
    return Ok(grown);
  }

  // ------------------------------------------------------------- confluence

  /** Facts projected one after another, from the sets of a new pass. */
  function Fold(pins: set<Path>, xs: seq<Projected>, inventory: set<Path>): Result<Facts> {
    if xs == [] then Ok(Facts(map[], pins, {}))
    else match Fold(pins, xs[..|xs| - 1], inventory)
      case Err(e) => Err(e)
      case Ok(f) => Project(f, xs[|xs| - 1], inventory)
  }

  // The order-free account: what a set of projected facts amounts to.

  predicate Offers(x: Projected, inventory: set<Path>, q: Path) {
    x.release && q in x.references && q in inventory
  }

  ghost predicate Consistent(s: set<Projected>, inventory: set<Path>) {
    forall x, y, q :: x in s && y in s && Offers(x, inventory, q) && Offers(y, inventory, q)
                      ==> x.references[q] == y.references[q]
  }

  predicate Binds(candidates: map<Path, Digest>, q: Path, d: Digest) {
    q in candidates && candidates[q] == d
  }

  ghost predicate OfferedAs(s: set<Projected>, inventory: set<Path>, q: Path, d: Digest) {
    exists x :: x in s && Offers(x, inventory, q) && x.references[q] == d
  }

  ghost predicate Refers(s: set<Projected>, q: Path) {
    exists x :: x in s && !x.release && q in x.references
  }

  ghost predicate Holds(s: set<Projected>, d: Digest) {
    exists x :: x in s && !x.release && d in x.interpreters
  }

  /** `f` is what the facts in `s` determine, whatever order they were projected in. */
  ghost predicate Denotes(f: Facts, pins: set<Path>, s: set<Projected>, inventory: set<Path>) {
    && (forall q, d :: Binds(f.candidates, q, d) <==> OfferedAs(s, inventory, q, d))
    && (forall d :: d in f.interpreters <==> Holds(s, d))
    && (forall q :: q in f.retained <==> Retains(f.candidates, pins, s, q))
  }

  ghost predicate Retains(candidates: map<Path, Digest>, pins: set<Path>, s: set<Projected>, q: Path) {
    q in pins || Refers(s, q) || (q in candidates && Holds(s, candidates[q]))
  }

  lemma DenotesUnique(f: Facts, g: Facts, pins: set<Path>, s: set<Projected>, inventory: set<Path>)
    requires Denotes(f, pins, s, inventory) && Denotes(g, pins, s, inventory)
    ensures f == g
  {
    assert f.interpreters == g.interpreters;
    forall q
      ensures q in f.candidates <==> q in g.candidates
      ensures q in f.candidates ==> f.candidates[q] == g.candidates[q]
    {
      if q in f.candidates {
        assert Binds(f.candidates, q, f.candidates[q]);
        assert Binds(g.candidates, q, f.candidates[q]);
      }
      if q in g.candidates {
        assert Binds(g.candidates, q, g.candidates[q]);
        assert Binds(f.candidates, q, g.candidates[q]);
      }
    }
    assert f.candidates == g.candidates;
    assert f.retained == g.retained;
  }

  function Seen(xs: seq<Projected>): set<Projected> {
    set x | x in xs
  }

  /** The fold without its checks. */
  function Raw(pins: set<Path>, xs: seq<Projected>, inventory: set<Path>): Facts {
    if xs == [] then Facts(map[], pins, {})
    else Grow(Raw(pins, xs[..|xs| - 1], inventory), xs[|xs| - 1], inventory)
  }

  lemma SeenLast(xs: seq<Projected>)
    requires xs != []
    ensures Seen(xs) == Seen(xs[..|xs| - 1]) + {xs[|xs| - 1]}
  {
    var last := |xs| - 1;
    forall x | x in xs
      ensures x in Seen(xs[..last]) + {xs[last]}
    {
      var i :| 0 <= i < |xs| && xs[i] == x;
      assert i < last ==> x in xs[..last];
    }
  }

  lemma ConsistentPart(s: set<Projected>, t: set<Projected>, inventory: set<Path>)
    requires s <= t && Consistent(t, inventory)
    ensures Consistent(s, inventory)
  {
  }

  lemma AddedFact(s: set<Projected>, x: Projected, inventory: set<Path>, q: Path, d: Digest)
    ensures Holds(s + {x}, d) <==> Holds(s, d) || (!x.release && d in x.interpreters)
    ensures Refers(s + {x}, q) <==> Refers(s, q) || (!x.release && q in x.references)
    ensures OfferedAs(s + {x}, inventory, q, d) <==>
            OfferedAs(s, inventory, q, d) || (Offers(x, inventory, q) && x.references[q] == d)
  {
    var t := s + {x};
    assert x in t;
    if Holds(s, d) {
      var y :| y in s && !y.release && d in y.interpreters;
      assert y in t;
    }
    if Refers(s, q) {
      var y :| y in s && !y.release && q in y.references;
      assert y in t;
    }
    if OfferedAs(s, inventory, q, d) {
      var y :| y in s && Offers(y, inventory, q) && y.references[q] == d;
      assert y in t;
    }
  }

  /** One projection step keeps the order-free account exact. */
  lemma GrowDenotes(f: Facts, x: Projected, pins: set<Path>, s: set<Projected>, inventory: set<Path>)
    requires Denotes(f, pins, s, inventory)
    requires Consistent(s + {x}, inventory)
    ensures Denotes(Grow(f, x, inventory), pins, s + {x}, inventory)
  {
    var g, t := Grow(f, x, inventory), s + {x};
    forall d
      ensures d in g.interpreters <==> Holds(t, d)
    {
      AddedFact(s, x, inventory, [], d);
    }
    forall q, d
      ensures Binds(g.candidates, q, d) <==> OfferedAs(t, inventory, q, d)
    {
      GrowCandidate(f, x, pins, s, inventory, q, d);
    }
    forall q
      ensures q in g.retained <==> Retains(g.candidates, pins, t, q)
    {
      GrowRetained(f, x, pins, s, inventory, q);
    }
  }

  lemma GrowCandidate(f: Facts, x: Projected, pins: set<Path>, s: set<Projected>, inventory: set<Path>, q: Path,
                      d: Digest)
    requires Denotes(f, pins, s, inventory)
    requires Consistent(s + {x}, inventory)
    ensures Binds(Grow(f, x, inventory).candidates, q, d) <==> OfferedAs(s + {x}, inventory, q, d)
    ensures q in f.candidates ==> Binds(Grow(f, x, inventory).candidates, q, f.candidates[q])
  {
    AddedFact(s, x, inventory, q, d);
    if q in f.candidates {
      assert Binds(f.candidates, q, f.candidates[q]);
      var y :| y in s && Offers(y, inventory, q) && y.references[q] == f.candidates[q];
      assert y in s + {x} && x in s + {x};
    }
    assert Binds(f.candidates, q, d) <==> OfferedAs(s, inventory, q, d);
  }

  lemma GrowRetained(f: Facts, x: Projected, pins: set<Path>, s: set<Projected>, inventory: set<Path>, q: Path)
    requires Denotes(f, pins, s, inventory)
    requires Consistent(s + {x}, inventory)
    ensures q in Grow(f, x, inventory).retained <==> Retains(Grow(f, x, inventory).candidates, pins, s + {x}, q)
  {
    var g := Grow(f, x, inventory);
    assert q in f.retained <==> Retains(f.candidates, pins, s, q);
    if q in g.candidates {
      GrowCandidate(f, x, pins, s, inventory, q, g.candidates[q]);
      AddedFact(s, x, inventory, q, g.candidates[q]);
      assert g.candidates[q] in f.interpreters <==> Holds(s, g.candidates[q]);
    } else {
      AddedFact(s, x, inventory, q, 0);
    }
  }

  lemma {:induction false} RawDenotes(pins: set<Path>, xs: seq<Projected>, inventory: set<Path>)
    requires Consistent(Seen(xs), inventory)
    ensures Denotes(Raw(pins, xs, inventory), pins, Seen(xs), inventory)
  {
    if xs != [] {
      var init, x := xs[..|xs| - 1], xs[|xs| - 1];
      SeenLast(xs);
      ConsistentPart(Seen(init), Seen(xs), inventory);
      RawDenotes(pins, init, inventory);
      GrowDenotes(Raw(pins, init, inventory), x, pins, Seen(init), inventory);
    }
  }

  lemma SizesGrow(f: Facts, x: Projected, inventory: set<Path>)
    ensures Fits(Grow(f, x, inventory)) ==> Fits(f)
  {
    var g := Grow(f, x, inventory);
    Smaller(f.retained, g.retained);
    Smaller(f.interpreters, g.interpreters);
    Smaller(f.candidates.Keys, g.candidates.Keys);
    assert |f.candidates| == |f.candidates.Keys| && |g.candidates| == |g.candidates.Keys|;
  }

  lemma Smaller<T>(a: set<T>, b: set<T>)
    requires a <= b
    ensures |a| <= |b|
  {
    assert b == a + (b - a);
  }

  /**
   Projection succeeds exactly when the facts, taken together, bind no inventoried path to
   two digests and fit the limits; the outcome is then the unchecked fold.
   */
  lemma {:induction false} FoldOutcome(pins: set<Path>, xs: seq<Projected>, inventory: set<Path>)
    ensures Fold(pins, xs, inventory).Ok? <==>
            Consistent(Seen(xs), inventory) && (xs == [] || Fits(Raw(pins, xs, inventory)))
    ensures Fold(pins, xs, inventory).Ok? ==> Fold(pins, xs, inventory).value == Raw(pins, xs, inventory)
  {
    if xs != [] {
      var init, x := xs[..|xs| - 1], xs[|xs| - 1];
      FoldOutcome(pins, init, inventory);
      SeenLast(xs);
      var f := Raw(pins, init, inventory);
      SizesGrow(f, x, inventory);
      if Consistent(Seen(xs), inventory) {
        ConsistentPart(Seen(init), Seen(xs), inventory);
      }
      if Consistent(Seen(init), inventory) {
        RawDenotes(pins, init, inventory);
        LastAgrees(f, x, pins, Seen(init), inventory);
        if init == [] && !Consistent(Seen(xs), inventory) {
          assert x.release ==> Agree(f.candidates, Listed(x.references, inventory));
        }
      }
    }
  }

  /** The candidate-map check on the next fact is consistency of the facts so far. */
  lemma LastAgrees(f: Facts, x: Projected, pins: set<Path>, s: set<Projected>, inventory: set<Path>)
    requires Denotes(f, pins, s, inventory) && Consistent(s, inventory)
    ensures (x.release ==> Agree(f.candidates, Listed(x.references, inventory))) <==> Consistent(s + {x}, inventory)
  {
    var listed := Listed(x.references, inventory);
    if Consistent(s + {x}, inventory) && x.release {
      forall q | q in f.candidates && q in listed
        ensures f.candidates[q] == listed[q]
      {
        assert Binds(f.candidates, q, f.candidates[q]);
        var y :| y in s && Offers(y, inventory, q) && y.references[q] == f.candidates[q];
        assert x in s + {x} && y in s + {x} && Offers(x, inventory, q);
      }
    }
    if x.release ==> Agree(f.candidates, listed) {
      forall y, z, q | y in s + {x} && z in s + {x} && Offers(y, inventory, q) && Offers(z, inventory, q)
        ensures y.references[q] == z.references[q]
      {
        if y in s {
          assert OfferedAs(s, inventory, q, y.references[q]);
          assert Binds(f.candidates, q, y.references[q]);
        }
        if z in s {
          assert OfferedAs(s, inventory, q, z.references[q]);
          assert Binds(f.candidates, q, z.references[q]);
        }
      }
    }
  }

  /**
   Confluence: the accumulated sets, and whether projection failed at all, depend only on
   which facts were projected with which flag, not on their order or repetition.
   */
  lemma Confluent(pins: set<Path>, xs: seq<Projected>, ys: seq<Projected>, inventory: set<Path>)
    requires Seen(xs) == Seen(ys)
    ensures Fold(pins, xs, inventory).Ok? <==> Fold(pins, ys, inventory).Ok?
    ensures Fold(pins, xs, inventory).Ok? ==> Fold(pins, xs, inventory) == Fold(pins, ys, inventory)
  {
    FoldOutcome(pins, xs, inventory);
    FoldOutcome(pins, ys, inventory);
    assert xs == [] <==> ys == [] by {
      if xs != [] { assert xs[0] in Seen(ys); }
      if ys != [] { assert ys[0] in Seen(xs); }
    }
    if Consistent(Seen(xs), inventory) {
      RawDenotes(pins, xs, inventory);
      RawDenotes(pins, ys, inventory);
      DenotesUnique(Raw(pins, xs, inventory), Raw(pins, ys, inventory), pins, Seen(xs), inventory);
    }
  }

  /** What is deletable, said without any order: offered, and neither pinned, held nor an interpreter. */
  lemma DeletableMeaning(pins: set<Path>, xs: seq<Projected>, inventory: set<Path>, q: Path)
    requires Fold(pins, xs, inventory).Ok?
    ensures var f := Fold(pins, xs, inventory).value;
            q in f.candidates.Keys - f.retained <==>
            && q !in pins
            && (forall x :: x in xs && !x.release ==> q !in x.references)
            && (exists x :: x in xs && Offers(x, inventory, q)
                            && forall y :: y in xs && !y.release ==> x.references[q] !in y.interpreters)
  {
    FoldOutcome(pins, xs, inventory);
    RawDenotes(pins, xs, inventory);
    var f, s := Fold(pins, xs, inventory).value, Seen(xs);
    assert forall x :: x in s <==> x in xs;
    assert q in f.retained <==> Retains(f.candidates, pins, s, q);
    assert Refers(s, q) <==> !(forall x :: x in xs && !x.release ==> q !in x.references);
    if q in f.candidates {
      var d := f.candidates[q];
      assert Binds(f.candidates, q, d);
      var x :| x in s && Offers(x, inventory, q) && x.references[q] == d;
      assert Holds(s, d) <==> !(forall y :: y in xs && !y.release ==> d !in y.interpreters);
    }
    forall z | z in xs && Offers(z, inventory, q)
      ensures Binds(f.candidates, q, z.references[q])
    {
      assert OfferedAs(s, inventory, q, z.references[q]);
    }
  }
}
