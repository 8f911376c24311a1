/**
 Typed values on the wire and the JSON they are read from and shown as. The two conversions are
 inverse at every type, except that a number loses the integers a double cannot hold.
 */
module ScalarCodec {

  datatype Result<+T> = Ok(value: T) | Err(error: Error)

  datatype Error = Protocol | Capacity

  /** Integers and floats stay apart, as the parser keeps them; a float is the value it denotes. */
  datatype Json = Null | Flag(b: bool) | Whole(i: int) | Float(x: real) | Text(s: string)
                | List(items: seq<Json>) | Obj(fields: map<string, Json>)

  datatype Scalar = StringValue(s: string) | IntegerValue(i: int) | NumberValue(x: real) | TimeValue(i: int)
                  | BooleanValue(b: bool) | ArrayValue(items: seq<Scalar>) | ObjectValue(fields: map<string, Scalar>)

  datatype Property = Property(key: string, ty: Type, required: bool)

  /** `Object` wants exactly its keys; `Record` wants its required keys and no unknown ones. */
  datatype Type = StringType | EnumType | IntegerType | NumberType | TimeType | BooleanType
                | ArrayType(items: Type, maxItems: nat) | ObjectType(properties: seq<Property>)
                | RecordType(properties: seq<Property>)

  const DEPTH: nat := 6

  predicate I64(i: int) {
    -0x8000_0000_0000_0000 <= i <= 0x7fff_ffff_ffff_ffff
  }

  // ------------------------------------------------------------------ doubles

  const MANTISSA := 0x20_0000_0000_0000   // two to the 53rd

  /** The distance between doubles around `n`: the least power of two that leaves 53 bits. */
  function Spacing(n: nat, u: nat): (r: nat)
    requires u > 0
    ensures r > 0
    decreases if n < MANTISSA * u then 0 else n - u + 1
  {
    if n < MANTISSA * u then u else Spacing(n, 2 * u)
  }

  /** To the nearest double, halves to the even one. */
  function Rounded(n: nat): nat {
    var u := Spacing(n, 1);
    var q, r := n / u, n % u;
    if 2 * r < u || (2 * r == u && q % 2 == 0) then q * u else (q + 1) * u
  }

  function AsDouble(i: int): real {
    if i < 0 then -(Rounded(-i) as real) else Rounded(i) as real
  }

  function Two(k: nat): (r: nat)
    ensures r > 0
  {
    if k == 0 then 1 else 2 * Two(k - 1)
  }

  /** A mantissa of 53 bits, shifted. */
  predicate Shifted(n: nat, m: nat, k: nat) {
    m < MANTISSA && n == m * Two(k)
  }

  /** The integer has a double of the same value. */
  ghost predicate Representable(i: int) {
    exists m: nat, k: nat :: Shifted(Magnitude(i), m, k)
  }

  function Magnitude(i: int): nat {
    if i < 0 then -i else i
  }

  /** The spacing is the least power of two that leaves 53 bits. */
  lemma {:induction false} SpacingIs(n: nat, k: nat) returns (s: nat)
    requires k == 0 || MANTISSA * Two(k - 1) <= n
    ensures Spacing(n, Two(k)) == Two(s) && n < MANTISSA * Two(s) && (s == 0 || MANTISSA * Two(s - 1) <= n)
    decreases if n < MANTISSA * Two(k) then 0 else n - Two(k) + 1
  {
    if n < MANTISSA * Two(k) {
      s := k;
    } else {
      s := SpacingIs(n, k + 1);
    }
  }

  lemma {:induction false} TwoAdds(a: nat, b: nat)
    ensures Two(a + b) == Two(a) * Two(b)
  {
    if a > 0 {
      TwoAdds(a - 1, b);
      assert Two(a + b) == 2 * Two(a - 1 + b);
      assert 2 * (Two(a - 1) * Two(b)) == (2 * Two(a - 1)) * Two(b);
    }
  }

  lemma {:induction false} TwoRises(a: nat, b: nat)
    requires a <= b
    ensures Two(a) <= Two(b)
  {
    if a < b {
      TwoRises(a, b - 1);
    }
  }

  lemma Product(a: nat, b: nat, c: nat)
    requires c > 0 && a == b * c
    ensures a % c == 0
  {
    var d := b - a / c;
    assert d * c == b * c - (a / c) * c;
    assert d * c == a % c && (-d) * c == -(d * c);
    if d >= 1 {
      Multiple(d, c);
    } else if -d >= 1 {
      Multiple(-d, c);
    }
  }

  lemma Multiple(d: int, c: int)
    requires d >= 1 && c > 0
    ensures d * c >= c
  {
  }

  /** An integer is a shifted mantissa exactly when the spacing at its size divides it. */
  lemma SpacingDivides(i: int)
    ensures Representable(i) <==> Magnitude(i) % Spacing(Magnitude(i), 1) == 0
  {
    var n := Magnitude(i);
    var s := SpacingIs(n, 0);
    var u := Two(s);
    if n % u == 0 {
      assert n == (n / u) * u;
      Smaller(n / u, MANTISSA, u);
      assert Shifted(n, n / u, s);
    }
    if Representable(i) {
      var m: nat, k: nat :| Shifted(n, m, k);
      Divides(n, m, k, s);
    }
  }

  lemma Divides(n: nat, m: nat, k: nat, s: nat)
    requires Shifted(n, m, k) && (s == 0 || MANTISSA * Two(s - 1) <= n)
    ensures n % Two(s) == 0
  {
    ShiftReaches(n, m, k, s);
    TwoAdds(k - s, s);
    assert m * (Two(k - s) * Two(s)) == (m * Two(k - s)) * Two(s);
    Product(n, m * Two(k - s), Two(s));
  }

  lemma TwoRises53(a: nat, b: nat)
    requires a <= b
    ensures MANTISSA * Two(a) <= MANTISSA * Two(b)
  {
    TwoRises(a, b);
  }

  /** A shift that holds the number is at least the spacing's. */
  lemma ShiftReaches(n: nat, m: nat, k: nat, s: nat)
    requires Shifted(n, m, k) && (s == 0 || MANTISSA * Two(s - 1) <= n)
    ensures s <= k
  {
    Larger(m, MANTISSA, Two(k));
    if k < s {
      TwoRises53(k, s - 1);
    }
  }

  lemma Smaller(q: nat, m: nat, u: nat)
    requires q * u < m * u
    ensures q < m
  {
    if m <= q {
      NotLarger(m, q, u);
    }
  }

  lemma NotLarger(m: nat, q: nat, u: nat)
    requires m <= q
    ensures m * u <= q * u
  {
  }

  lemma Larger(q: nat, m: nat, u: nat)
    requires q < m && 0 < u
    ensures q * u < m * u
  {
  }

  lemma RoundedExactly(n: nat)
    ensures Rounded(n) == n <==> n % Spacing(n, 1) == 0
  {
    var u := Spacing(n, 1);
    var q, r := n / u, n % u;
    assert n == q * u + r;
    assert (q + 1) * u == q * u + u;
  }

  /** A number carries an integer exactly when the integer has a double of its own. */
  lemma AsDoubleExactly(i: int)
    ensures AsDouble(i) == i as real <==> Representable(i)
  {
    RoundedExactly(Magnitude(i));
    SpacingDivides(i);
  }

  /** Every integer up to two to the 53rd survives; the next one comes back as its even neighbour. */
  lemma FirstLostInteger(i: int)
    ensures -MANTISSA <= i <= MANTISSA ==> AsDouble(i) == i as real
    ensures AsDouble(MANTISSA + 1) == MANTISSA as real && AsDouble(-MANTISSA - 1) == -(MANTISSA as real)
  {
    if -MANTISSA <= i <= MANTISSA {
      var n := Magnitude(i);
      if n < MANTISSA {
        assert Two(0) == 1;
        assert Shifted(n, n, 0);
      } else {
        assert Two(1) == 2 * Two(0) == 2;
        assert Shifted(n, MANTISSA / 2, 1);
      }
      AsDoubleExactly(i);
    }
    assert Spacing(MANTISSA + 1, 2) == 2;
    assert Spacing(MANTISSA + 1, 1) == 2;
    assert (MANTISSA + 1) / 2 == MANTISSA / 2 && (MANTISSA + 1) % 2 == 1;
  }

  // -------------------------------------------------------------- conversions

  /** A property that must be present. */
  predicate Needed(t: Type, i: nat)
    requires (t.ObjectType? || t.RecordType?) && i < |t.properties|
  {
    t.ObjectType? || t.properties[i].required
  }

  predicate Known(t: Type, key: string)
    requires t.ObjectType? || t.RecordType?
  {
    exists i :: 0 <= i < |t.properties| && t.properties[i].key == key
  }

  function ScalarOf(t: Type, v: Json, depth: nat): Result<Scalar>
    decreases t, 1, 0
  {
    if depth > DEPTH then Err(Capacity)
    else match t
      case StringType => if v.Text? then Ok(StringValue(v.s)) else Err(Protocol)
      case EnumType => if v.Text? then Ok(StringValue(v.s)) else Err(Protocol)
      case IntegerType => if v.Whole? && I64(v.i) then Ok(IntegerValue(v.i)) else Err(Protocol)
      case NumberType =>
        if v.Whole? then Ok(NumberValue(AsDouble(v.i)))
        else if v.Float? then Ok(NumberValue(v.x))
        else Err(Protocol)
      case TimeType => if v.Whole? && I64(v.i) then Ok(TimeValue(v.i)) else Err(Protocol)
      case BooleanType => if v.Flag? then Ok(BooleanValue(v.b)) else Err(Protocol)
      case ArrayType(items, maxItems) =>
        if !v.List? || |v.items| > maxItems then Err(Capacity)
        else
          (match ItemsOf(items, v.items, depth + 1)
           case Ok(values) => Ok(ArrayValue(values))
           case Err(e) => Err(e))
      case ObjectType(properties) =>
        if !v.Obj? || |v.fields| != |properties| then Err(Protocol)
        else
          (match FieldsFrom(t, 0, v.fields, depth + 1)
           case Ok(values) => Ok(ObjectValue(values))
           case Err(e) => Err(e))
      case RecordType(properties) =>
        if !v.Obj? || exists key :: key in v.fields && !Known(t, key) then Err(Protocol)
        else
          (match FieldsFrom(t, 0, v.fields, depth + 1)
           case Ok(values) => Ok(ObjectValue(values))
           case Err(e) => Err(e))
  }

  /** Every item in order; the first failure is the failure of the list. */
  function ItemsOf(t: Type, items: seq<Json>, depth: nat): Result<seq<Scalar>>
    decreases t, 2, |items|
  {
    if items == [] then Ok([])
    else match ScalarOf(t, items[0], depth)
      case Err(e) => Err(e)
      case Ok(first) =>
        match ItemsOf(t, items[1..], depth)
        case Err(e) => Err(e)
        case Ok(rest) => Ok([first] + rest)
  }

  /** The properties from `i` on, in order. */
  function FieldsFrom(t: Type, i: nat, fields: map<string, Json>, depth: nat): Result<map<string, Scalar>>
    requires (t.ObjectType? || t.RecordType?) && i <= |t.properties|
    decreases t, 0, |t.properties| - i
  {
    if i == |t.properties| then Ok(map[])
    else
      var p := t.properties[i];
      if p.key !in fields then
        if Needed(t, i) then Err(Protocol) else FieldsFrom(t, i + 1, fields, depth)
      else match ScalarOf(p.ty, fields[p.key], depth)
        case Err(e) => Err(e)
        case Ok(first) =>
          match FieldsFrom(t, i + 1, fields, depth)
          case Err(e) => Err(e)
          case Ok(rest) => Ok(rest[p.key := first])
  }

  function JsonOf(s: Scalar): Json {
    match s
    case StringValue(s) => Text(s)
    case IntegerValue(i) => Whole(i)
    case TimeValue(i) => Whole(i)
    case BooleanValue(b) => Flag(b)
    case NumberValue(x) => Float(x)
    case ArrayValue(items) => List(seq(|items|, i requires 0 <= i < |items| => JsonOf(items[i])))
    case ObjectValue(fields) => Obj(map key | key in fields :: JsonOf(fields[key]))
  }

  // ------------------------------------------------------------------ meaning

  /** Property keys are the keys of an ordered map: no two are equal. */
  predicate Formed(t: Type) {
    match t
    case ArrayType(items, _) => Formed(items)
    case ObjectType(ps) => DistinctKeys(ps) && forall i :: 0 <= i < |ps| ==> Formed(ps[i].ty)
    case RecordType(ps) => DistinctKeys(ps) && forall i :: 0 <= i < |ps| ==> Formed(ps[i].ty)
    case _ => true
  }

  predicate DistinctKeys(ps: seq<Property>) {
    forall i, j :: 0 <= i < j < |ps| ==> ps[i].key != ps[j].key
  }

  /** `s` is a value of type `t`, nested no deeper than allowed below `depth`. */
  predicate HasType(t: Type, s: Scalar, depth: nat)
    decreases t
  {
    depth <= DEPTH
    && match t
       case StringType => s.StringValue?
       case EnumType => s.StringValue?
       case IntegerType => s.IntegerValue? && I64(s.i)
       case NumberType => s.NumberValue?
       case TimeType => s.TimeValue? && I64(s.i)
       case BooleanType => s.BooleanValue?
       case ArrayType(items, maxItems) =>
         s.ArrayValue? && |s.items| <= maxItems && forall i :: 0 <= i < |s.items| ==>
             HasType(items, s.items[i], depth + 1)
       case ObjectType(ps) =>
         s.ObjectValue? && HasFields(t, s.fields)
         && forall i :: 0 <= i < |ps| && ps[i].key in s.fields ==> HasType(ps[i].ty, s.fields[ps[i].key], depth + 1)
       case RecordType(ps) =>
         s.ObjectValue? && HasFields(t, s.fields)
         && forall i :: 0 <= i < |ps| && ps[i].key in s.fields ==> HasType(ps[i].ty, s.fields[ps[i].key], depth + 1)
  }

  /** Every needed key, and no unknown one. */
  predicate HasFields<T>(t: Type, fields: map<string, T>)
    requires t.ObjectType? || t.RecordType?
  {
    && (forall i :: 0 <= i < |t.properties| && Needed(t, i) ==> t.properties[i].key in fields)
    && (forall key :: key in fields ==> Known(t, key))
  }

  /** Equal as data: numbers by the value they denote. */
  predicate SameJson(a: Json, b: Json) {
    match a
    case Null => b.Null?
    case Flag(x) => b == a
    case Text(s) => b == a
    case Whole(i) => (b.Whole? && b.i == i) || (b.Float? && b.x == i as real)
    case Float(x) => (b.Float? && b.x == x) || (b.Whole? && b.i as real == x)
    case List(items) => b.List? && |items| == |b.items| && forall i :: 0 <= i < |items| ==>
        SameJson(items[i], b.items[i])
    case Obj(fields) =>
      b.Obj? && fields.Keys == b.fields.Keys && forall key :: key in fields ==> SameJson(fields[key], b.fields[key])
  }

  /** Every integer given where a number is wanted is a double. */
  ghost predicate Exact(t: Type, v: Json) {
    match t
    case NumberType => v.Whole? ==> Representable(v.i)
    case ArrayType(items, _) => v.List? ==> forall i :: 0 <= i < |v.items| ==> Exact(items, v.items[i])
    case ObjectType(ps) => v.Obj? ==> forall i :: 0 <= i < |ps| && ps[i].key in v.fields ==>
        Exact(ps[i].ty, v.fields[ps[i].key])
    case RecordType(ps) => v.Obj? ==> forall i :: 0 <= i < |ps| && ps[i].key in v.fields ==>
        Exact(ps[i].ty, v.fields[ps[i].key])
    case _ => true
  }

  // -------------------------------------------------------------- the two trips

  lemma {:induction false} ItemsAt(t: Type, items: seq<Json>, depth: nat)
    ensures var r := ItemsOf(t, items, depth);
            && (r.Ok? <==> forall i :: 0 <= i < |items| ==> ScalarOf(t, items[i], depth).Ok?)
            && (r.Ok? ==> |r.value| == |items|
                          && forall i :: 0 <= i < |items| ==> ScalarOf(t, items[i], depth) == Ok(r.value[i]))
  {
    if items != [] {
      ItemsAt(t, items[1..], depth);
      assert forall i :: 0 < i < |items| ==> items[i] == items[1..][i - 1];
      assert forall i :: 0 <= i < |items[1..]| ==> items[1..][i] == items[i + 1];
    }
  }

  lemma {:induction false} FieldsAt(t: Type, i: nat, fields: map<string, Json>, depth: nat)
    requires (t.ObjectType? || t.RecordType?) && i <= |t.properties|
    ensures FieldsFrom(t, i, fields, depth).Ok? <==> forall j :: i <= j < |t.properties| ==>
        FieldOk(t, j, fields, depth)
    decreases |t.properties| - i
  {
    if i < |t.properties| {
      FieldsAt(t, i + 1, fields, depth);
      assert FieldsFrom(t, i, fields, depth).Ok? <==>
          FieldOk(t, i, fields, depth)
          && FieldsFrom(t, i + 1, fields, depth).Ok?;
    }
  }

  /** Each known key that is present is kept with its own conversion. */
  lemma {:induction false} FieldsValues(t: Type, i: nat, fields: map<string, Json>, depth: nat, j: nat)
    requires (t.ObjectType? || t.RecordType?) && DistinctKeys(t.properties) && i <= j < |t.properties|
    requires t.properties[j].key in fields && FieldsFrom(t, i, fields, depth).Ok?
    ensures var p, r := t.properties[j], FieldsFrom(t, i, fields, depth).value;
            p.key in r && ScalarOf(p.ty, fields[p.key], depth) == Ok(r[p.key])
    decreases j - i
  {
    if i < j {
      FieldsValues(t, i + 1, fields, depth, j);
    }
  }

  /** Nothing else is kept. */
  lemma {:induction false} FieldsKeys(t: Type, i: nat, fields: map<string, Json>, depth: nat)
    requires (t.ObjectType? || t.RecordType?) && i <= |t.properties| && FieldsFrom(t, i, fields, depth).Ok?
    ensures FieldsFrom(t, i, fields, depth).value.Keys <= fields.Keys
    decreases |t.properties| - i
  {
    if i < |t.properties| {
      FieldsKeys(t, i + 1, fields, depth);
    }
  }

  predicate FieldOk(t: Type, j: nat, fields: map<string, Json>, depth: nat)
    requires (t.ObjectType? || t.RecordType?) && j < |t.properties|
  {
    var p := t.properties[j];
    if p.key in fields then ScalarOf(p.ty, fields[p.key], depth).Ok? else !Needed(t, j)
  }

  function Keys(ps: seq<Property>): set<string> {
    set i | 0 <= i < |ps| :: ps[i].key
  }

  lemma {:induction false} KeysCount(ps: seq<Property>)
    requires DistinctKeys(ps)
    ensures |Keys(ps)| == |ps|
  {
    if ps == [] {
      assert Keys(ps) == {};
    } else {
      var n := |ps| - 1;
      KeysCount(ps[..n]);
      assert Keys(ps) == Keys(ps[..n]) + {ps[n].key};
      assert ps[n].key !in Keys(ps[..n]);
    }
  }

  lemma EqualSets(a: set<string>, b: set<string>)
    requires a <= b && |a| == |b|
    ensures a == b
  {
    assert |b - a| == |b| - |a|;
  }

  /** An object with as many fields as properties, all present, has no unknown field. */
  lemma ObjectFields<T>(t: Type, fields: map<string, T>)
    requires t.ObjectType? && DistinctKeys(t.properties)
    ensures HasFields(t, fields) <==>
            |fields| == |t.properties| && forall i :: 0 <= i < |t.properties| ==> t.properties[i].key in fields
  {
    var ps := t.properties;
    KeysCount(ps);
    if forall i :: 0 <= i < |ps| ==> ps[i].key in fields {
      assert Keys(ps) <= fields.Keys;
      if |fields| == |ps| {
        EqualSets(Keys(ps), fields.Keys);
        forall key | key in fields
          ensures Known(t, key)
        {
          assert key in Keys(ps);
        }
      }
      if HasFields(t, fields) {
        forall key | key in fields
          ensures key in Keys(ps)
        {
          assert Known(t, key);
        }
        assert Keys(ps) == fields.Keys;
      }
    } else {
      var i :| 0 <= i < |ps| && ps[i].key !in fields;
      assert Needed(t, i);
    }
  }

  /** Every known key that is present converts at its own type. */
  predicate AllConvert(t: Type, fields: map<string, Json>, depth: nat)
    requires t.ObjectType? || t.RecordType?
  {
    forall i :: 0 <= i < |t.properties| && t.properties[i].key in fields ==>
                  ScalarOf(t.properties[i].ty, fields[t.properties[i].key], depth).Ok?
  }

  lemma FieldsOk(t: Type, fields: map<string, Json>, depth: nat)
    requires t.ObjectType? || t.RecordType?
    ensures (forall j :: 0 <= j < |t.properties| ==> FieldOk(t, j, fields, depth)) <==>
            AllConvert(t, fields, depth)
            && forall i :: 0 <= i < |t.properties| && Needed(t, i) ==> t.properties[i].key in fields
  {
    if AllConvert(t, fields, depth) && forall i :: 0 <= i < |t.properties| && Needed(t, i) ==>
        t.properties[i].key in fields {
    } else if forall j :: 0 <= j < |t.properties| ==> FieldOk(t, j, fields, depth) {
      forall i | 0 <= i < |t.properties| && t.properties[i].key in fields
        ensures ScalarOf(t.properties[i].ty, fields[t.properties[i].key], depth).Ok?
      {
        assert FieldOk(t, i, fields, depth);
      }
      forall i | 0 <= i < |t.properties| && Needed(t, i)
        ensures t.properties[i].key in fields
      {
        assert FieldOk(t, i, fields, depth);
      }
    }
  }

  /**
   A conversion of an object succeeds exactly when it holds every needed key, no unknown one, and
   values that convert.
   */
  lemma {:induction false} ObjectOk(t: Type, fields: map<string, Json>, depth: nat)
    requires (t.ObjectType? || t.RecordType?) && DistinctKeys(t.properties) && depth <= DEPTH
    ensures ScalarOf(t, Obj(fields), depth).Ok? <==> HasFields(t, fields) && AllConvert(t, fields, depth + 1)
  {
    FieldsAt(t, 0, fields, depth + 1);
    FieldsOk(t, fields, depth + 1);
    if t.ObjectType? {
      ObjectFields(t, fields);
      assert forall i :: 0 <= i < |t.properties| ==> Needed(t, i);
    }
  }

  lemma {:induction false} ObjectIs(t: Type, fields: map<string, Json>, depth: nat)
    requires (t.ObjectType? || t.RecordType?) && ScalarOf(t, Obj(fields), depth).Ok?
    ensures depth <= DEPTH && FieldsFrom(t, 0, fields, depth + 1).Ok?
    ensures ScalarOf(t, Obj(fields), depth) == Ok(ObjectValue(FieldsFrom(t, 0, fields, depth + 1).value))
  {
  }

  /** What an object converts to: the same keys, each value converted at its own type. */
  lemma {:induction false} ObjectAt(t: Type, fields: map<string, Json>, depth: nat)
    requires (t.ObjectType? || t.RecordType?) && DistinctKeys(t.properties) && ScalarOf(t, Obj(fields), depth).Ok?
    ensures var s := ScalarOf(t, Obj(fields), depth).value;
            s.ObjectValue? && s.fields.Keys == fields.Keys
            && forall i :: 0 <= i < |t.properties| && t.properties[i].key in fields ==>
                             ScalarOf(t.properties[i].ty, fields[t.properties[i].key], depth + 1)
                                 == Ok(s.fields[t.properties[i].key])
  {
    ObjectIs(t, fields, depth);
    ObjectOk(t, fields, depth);
    FieldsKept(t, fields, depth + 1);
  }

  lemma {:induction false} FieldsKept(t: Type, fields: map<string, Json>, depth: nat)
    requires (t.ObjectType? || t.RecordType?) && DistinctKeys(t.properties)
    requires FieldsFrom(t, 0, fields, depth).Ok? && HasFields(t, fields)
    ensures var kept := FieldsFrom(t, 0, fields, depth).value;
            kept.Keys == fields.Keys
            && forall i :: 0 <= i < |t.properties| && t.properties[i].key in fields ==>
                             ScalarOf(t.properties[i].ty, fields[t.properties[i].key], depth)
                                 == Ok(kept[t.properties[i].key])
  {
    FieldsKeys(t, 0, fields, depth);
    var kept := FieldsFrom(t, 0, fields, depth).value;
    forall i | 0 <= i < |t.properties| && t.properties[i].key in fields
      ensures t.properties[i].key in kept
      ensures ScalarOf(t.properties[i].ty, fields[t.properties[i].key], depth) == Ok(kept[t.properties[i].key])
    {
      FieldsValues(t, 0, fields, depth, i);
    }
    forall key | key in fields
      ensures key in kept
    {
      assert Known(t, key);
    }
  }

  lemma {:induction false} ThroughItems(t: Type, s: Scalar, depth: nat)
    requires Formed(t) && t.ArrayType? && s.ArrayValue? && depth <= DEPTH
    ensures ScalarOf(t, JsonOf(s), depth) == Ok(s) <==> HasType(t, s, depth)
    decreases t, 0
  {
    var js := JsonOf(s).items;
    ItemsAt(t.items, js, depth + 1);
    forall i | 0 <= i < |s.items|
      ensures ScalarOf(t.items, js[i], depth + 1) == Ok(s.items[i]) <==> HasType(t.items, s.items[i], depth + 1)
    {
      ThroughJson(t.items, s.items[i], depth + 1);
    }
    var r := ItemsOf(t.items, js, depth + 1);
    if forall i :: 0 <= i < |s.items| ==> HasType(t.items, s.items[i], depth + 1) {
      assert r.value == s.items;
    }
  }

  lemma {:induction false} ThroughFields(t: Type, s: Scalar, depth: nat)
    requires Formed(t) && (t.ObjectType? || t.RecordType?) && s.ObjectValue? && depth <= DEPTH
    ensures ScalarOf(t, JsonOf(s), depth) == Ok(s) <==> HasType(t, s, depth)
    decreases t, 0
  {
    var js := JsonOf(s).fields;
    var ps := t.properties;
    assert js.Keys == s.fields.Keys;
    assert HasFields(t, js) == HasFields(t, s.fields);
    ObjectOk(t, js, depth);
    forall i | 0 <= i < |ps| && ps[i].key in s.fields
      ensures ScalarOf(ps[i].ty, js[ps[i].key], depth + 1) == Ok(s.fields[ps[i].key])
         <==> HasType(ps[i].ty, s.fields[ps[i].key], depth + 1)
    {
      ThroughJson(ps[i].ty, s.fields[ps[i].key], depth + 1);
    }
    if ScalarOf(t, Obj(js), depth).Ok? {
      ObjectAt(t, js, depth);
      var back := ScalarOf(t, Obj(js), depth).value;
      if HasType(t, s, depth) {
        forall key | key in s.fields
          ensures back.fields[key] == s.fields[key]
        {
          assert Known(t, key);
        }
        assert back.fields == s.fields;
      }
    }
  }

  /** A scalar survives the trip through JSON at a type exactly when it is a value of that type. */
  lemma {:induction false} ThroughJson(t: Type, s: Scalar, depth: nat)
    requires Formed(t)
    ensures ScalarOf(t, JsonOf(s), depth) == Ok(s) <==> HasType(t, s, depth)
    decreases t, 1
  {
    if depth <= DEPTH {
      match t {
        case ArrayType(_, _) =>
          if s.ArrayValue? {
            ThroughItems(t, s, depth);
          }
        case ObjectType(_) =>
          if s.ObjectValue? {
            ThroughFields(t, s, depth);
          }
        case RecordType(_) =>
          if s.ObjectValue? {
            ThroughFields(t, s, depth);
          }
        case _ =>
      }
    }
  }

  // --------------------------------------------------- from JSON and back to JSON

  lemma {:induction false} BackItems(t: Type, v: Json, depth: nat)
    requires Formed(t) && t.ArrayType? && v.List? && ScalarOf(t, v, depth).Ok?
    ensures var s := ScalarOf(t, v, depth).value;
            HasType(t, s, depth) && (SameJson(v, JsonOf(s)) <==> Exact(t, v))
    decreases t, 0
  {
    var s := ScalarOf(t, v, depth).value;
    ItemsAt(t.items, v.items, depth + 1);
    forall i | 0 <= i < |v.items|
      ensures HasType(t.items, s.items[i], depth + 1)
      ensures SameJson(v.items[i], JsonOf(s.items[i])) <==> Exact(t.items, v.items[i])
    {
      BackToJson(t.items, v.items[i], depth + 1);
    }
  }

  lemma {:induction false} BackFields(t: Type, v: Json, depth: nat)
    requires Formed(t) && (t.ObjectType? || t.RecordType?) && v.Obj? && ScalarOf(t, v, depth).Ok?
    ensures var s := ScalarOf(t, v, depth).value;
            HasType(t, s, depth) && (SameJson(v, JsonOf(s)) <==> Exact(t, v))
    decreases t, 0
  {
    var s := ScalarOf(t, v, depth).value;
    var ps := t.properties;
    ObjectIs(t, v.fields, depth);
    ObjectOk(t, v.fields, depth);
    ObjectAt(t, v.fields, depth);
    forall i | 0 <= i < |ps| && ps[i].key in v.fields
      ensures HasType(ps[i].ty, s.fields[ps[i].key], depth + 1)
      ensures SameJson(v.fields[ps[i].key], JsonOf(s.fields[ps[i].key])) <==> Exact(ps[i].ty, v.fields[ps[i].key])
    {
      BackToJson(ps[i].ty, v.fields[ps[i].key], depth + 1);
    }
    TypedFields(t, s, depth);
    ExactFields(t, v.fields, s);
  }

  lemma {:induction false} TypedFields(t: Type, s: Scalar, depth: nat)
    requires (t.ObjectType? || t.RecordType?) && s.ObjectValue? && depth <= DEPTH && HasFields(t, s.fields)
    requires forall i :: 0 <= i < |t.properties| && t.properties[i].key in s.fields ==>
                           HasType(t.properties[i].ty, s.fields[t.properties[i].key], depth + 1)
    ensures HasType(t, s, depth)
  {
  }

  lemma {:induction false} ExactFields(t: Type, fields: map<string, Json>, s: Scalar)
    requires (t.ObjectType? || t.RecordType?) && s.ObjectValue? && s.fields.Keys == fields.Keys && HasFields(t, fields)
    requires forall i :: 0 <= i < |t.properties| && t.properties[i].key in fields ==>
                           (SameJson(fields[t.properties[i].key], JsonOf(s.fields[t.properties[i].key]))
                            <==> Exact(t.properties[i].ty, fields[t.properties[i].key]))
    ensures SameJson(Obj(fields), JsonOf(s)) <==> Exact(t, Obj(fields))
  {
    SameFields(t, fields, JsonOf(s).fields);
  }

  lemma {:induction false} SameFields(t: Type, a: map<string, Json>, b: map<string, Json>)
    requires (t.ObjectType? || t.RecordType?) && a.Keys == b.Keys && HasFields(t, a)
    ensures SameJson(Obj(a), Obj(b)) <==>
            forall i :: 0 <= i < |t.properties| && t.properties[i].key in a ==>
                SameJson(a[t.properties[i].key], b[t.properties[i].key])
  {
    if forall i :: 0 <= i < |t.properties| && t.properties[i].key in a ==>
        SameJson(a[t.properties[i].key], b[t.properties[i].key]) {
      forall key | key in a
        ensures SameJson(a[key], b[key])
      {
        assert Known(t, key);
      }
    }
  }

  /**
   Whatever JSON is accepted at a type is a value of that type, and is given back as the same
   data exactly when every integer that a number was made from is a double.
   */
  lemma {:induction false} BackToJson(t: Type, v: Json, depth: nat)
    requires Formed(t) && ScalarOf(t, v, depth).Ok?
    ensures var s := ScalarOf(t, v, depth).value;
            HasType(t, s, depth) && (SameJson(v, JsonOf(s)) <==> Exact(t, v))
    decreases t, 1
  {
    match t {
      case ArrayType(_, _) => BackItems(t, v, depth);
      case ObjectType(_) => BackFields(t, v, depth);
      case RecordType(_) => BackFields(t, v, depth);
      case NumberType =>
        if v.Whole? {
          AsDoubleExactly(v.i);
        }
      case _ =>
    }
  }

  // ------------------------------------------------------- the loops of the source

  /** The record case: refuse unknown keys, then fill the result property by property. */
  method ReadRecord(t: Type, fields: map<string, Json>, depth: nat) returns (r: Result<Scalar>)
    requires t.RecordType? && DistinctKeys(t.properties) && depth <= DEPTH
    ensures r == ScalarOf(t, Obj(fields), depth)
  {
    if exists key :: key in fields && !Known(t, key) {
      return Err(Protocol);
    }
    var ps := t.properties;
    var result: map<string, Scalar> := map[];
    var i := 0;
    JoinedNone(FieldsFrom(t, 0, fields, depth + 1));
    while i < |ps|
      invariant i <= |ps|
      invariant forall j :: i <= j < |ps| ==> ps[j].key !in result
      invariant FieldsFrom(t, 0, fields, depth + 1) == Joined(FieldsFrom(t, i, fields, depth + 1), result)
    {
      var p := ps[i];
      if p.key in fields {
        var v := ScalarOf(p.ty, fields[p.key], depth + 1);
        if v.Err? {
          return Err(v.error);
        }
        JoinedMore(FieldsFrom(t, i + 1, fields, depth + 1), result, p.key, v.value);
        result := result[p.key := v.value];
      } else if p.required {
        return Err(Protocol);
      }
      i := i + 1;
    }
    assert map[] + result == result;
    r := Ok(ObjectValue(result));
  }

  function Joined(rest: Result<map<string, Scalar>>, done: map<string, Scalar>): Result<map<string, Scalar>> {
    match rest
    case Ok(m) => Ok(m + done)
    case Err(e) => Err(e)
  }

  lemma JoinedNone(rest: Result<map<string, Scalar>>)
    ensures Joined(rest, map[]) == rest
  {
    if rest.Ok? {
      assert rest.value + map[] == rest.value;
    }
  }

  lemma JoinedMore(rest: Result<map<string, Scalar>>, done: map<string, Scalar>, key: string, v: Scalar)
    requires key !in done
    ensures rest.Ok? ==> Joined(Ok(rest.value[key := v]), done) == Joined(rest, done[key := v])
  {
    if rest.Ok? {
      assert rest.value[key := v] + done == rest.value + done[key := v];
    }
  }

  // --------------------------------------------- observations as collected fields

  datatype Status = Complete | Missing | Truncated | Denied | Unsupported | Partial | SourceUnavailable | OtherStatus

  datatype Quality =
    | IsComplete | IsMissing | IsTruncated | IsDenied | IsUnsupported | IsPartial | IsFailed | IsUnknown
    | IsNotCollected

  datatype MissingRule = KeepMissing | AsNull | AsDeletion

  datatype Option<+T> = None | Some(value: T)

  /** `complete` is whether the result is complete for its query now; `rows` counts its rows. */
  datatype Observation = Observation(status: Status, at: int, complete: bool, rows: nat)

  datatype Binding = Binding(query: string, list: bool, missing: MissingRule)

  datatype FieldResult = FieldResult(value: Option<Json>, quality: Quality, at: int, deleted: bool)

  /** What the mapping and the field definition make of the selected rows, if they accept them. */
  type Projection = (string, Observation) -> Option<Json>

  function QualityOf(s: Status): Quality {
    match s
    case Complete => IsComplete
    case Missing => IsMissing
    case Truncated => IsTruncated
    case Denied => IsDenied
    case Unsupported => IsUnsupported
    case Partial => IsPartial
    case SourceUnavailable => IsPartial
    case OtherStatus => IsFailed
  }

  predicate Usable(o: Observation) {
    o.complete || ((o.status.Partial? || o.status.Truncated?) && o.rows > 0)
  }

  function FieldOf(key: string, b: Binding, o: Observation, projection: Projection): Result<FieldResult> {
    var plain := FieldResult(None, QualityOf(o.status), o.at, false);
    if Usable(o) then
      if !b.list && o.rows == 0 then Err(Protocol)
      else
        var v := projection(key, o);
        if v.None? then Ok(plain.(quality := IsFailed))
        else Ok(plain.(value := v, quality := if o.complete then IsComplete else QualityOf(o.status)))
    else if o.status.Missing? then
      match b.missing
      case KeepMissing => Ok(plain.(quality := IsMissing))
      case AsNull => Ok(plain.(quality := IsComplete, value := Some(Null)))
      case AsDeletion => Ok(plain.(quality := IsComplete, deleted := true))
    else if o.status.Complete? then Ok(plain.(quality := IsFailed))
    else Ok(plain)
  }

  /** Only a query that found nothing, and whose mapping says so, deletes a value. */
  lemma DeletionIsMeant(key: string, b: Binding, o: Observation, projection: Projection)
    requires FieldOf(key, b, o, projection).Ok?
    ensures var f := FieldOf(key, b, o, projection).value;
            && (f.deleted <==> !Usable(o) && o.status.Missing? && b.missing.AsDeletion?)
            && (f.deleted ==> f.value.None?)
  {
  }

  /** A field is complete only for a complete result that projects, or a nothing that has a meaning. */
  lemma CompleteIsMeant(key: string, b: Binding, o: Observation, projection: Projection)
    requires FieldOf(key, b, o, projection).Ok?
    ensures FieldOf(key, b, o, projection).value.quality.IsComplete? <==>
            if Usable(o) then o.complete && projection(key, o).Some?
            else o.status.Missing? && !b.missing.KeepMissing?
  {
  }

  /** The fields of one native result; a query without a result leaves its fields unknown. */
  method Native(keys: seq<string>, bindings: map<string, Binding>, results: map<string, Observation>, at: int,
                projection: Projection)
    returns (r: Result<map<string, FieldResult>>)
    ensures r.Ok? ==> r.value.Keys == (set k | k in keys)
    ensures r.Ok? ==> forall k :: k in keys ==>
                                    k in bindings
                                    && if bindings[k].query in results
                                       then FieldOf(k, bindings[k], results[bindings[k].query], projection)
                                           == Ok(r.value[k])
                                       else r.value[k] == FieldResult(None, IsUnknown, at, false)
    ensures r.Err? ==>
              exists k :: k in keys
                          && (k in bindings ==>
                                bindings[k].query in results
                                && FieldOf(k, bindings[k], results[bindings[k].query], projection).Err?)
  {
    var values: map<string, FieldResult> := map[];
    var i := 0;
    while i < |keys|
      invariant i <= |keys| && values.Keys == set k | k in keys[..i]
      invariant forall k :: k in keys[..i] ==>
                              k in bindings
                              && if bindings[k].query in results
                                 then FieldOf(k, bindings[k], results[bindings[k].query], projection) == Ok(values[k])
                                 else values[k] == FieldResult(None, IsUnknown, at, false)
    {
      var key := keys[i];
      assert key in keys;
      if key !in bindings {
        return Err(Protocol);
      }
      var b := bindings[key];
      if b.query !in results {
        values := values[key := FieldResult(None, IsUnknown, at, false)];
      } else {
        var f := FieldOf(key, b, results[b.query], projection);
        if f.Err? {
          return Err(f.error);
        }
        values := values[key := f.value];
      }
      assert keys[..i + 1] == keys[..i] + [key];
      i := i + 1;
    }
    assert keys[..i] == keys;
    r := Ok(values);
  }
}
