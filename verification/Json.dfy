/** JSON values as a probe compares them: equality, containment and paths. */
module Json {
  import opened Options

  /** A Python float; the reader accepts the special values too. */
  datatype Float = Finite(value: real) | Infinity(negative: bool) | NaN

  datatype Json =
    | Null
    | Bool(truth: bool)
    | Int(number: int)
    | Floating(float: Float)
    | Str(text: string)
    | Arr(items: seq<Json>)
    | Obj(fields: map<string, Json>)

  // ------------------------------------------------------------ comparison

  /** Integers and floats are one category; Python compares them exactly. */
  function NumberOf(j: Json): Float
    requires j.Int? || j.Floating?
  {
    if j.Int? then Finite(j.number as real) else j.float
  }

  predicate NumberEqual(a: Float, b: Float) {
    a == b && !a.NaN?
  }

  predicate ScalarEqual(actual: Json, expected: Json) {
    if (actual.Int? || actual.Floating?) && (expected.Int? || expected.Floating?)
      then NumberEqual(NumberOf(actual), NumberOf(expected))
    else actual == expected
  }

  predicate Contains(actual: Json, expected: Json)
    decreases expected
  {
    if expected.Obj? then
      && actual.Obj?
      && forall key <- expected.fields :: key in actual.fields && Contains(actual.fields[key], expected.fields[key])
    else if expected.Arr? then
      && actual.Arr? && |actual.items| >= |expected.items|
      && forall i :: 0 <= i < |expected.items| ==> Contains(actual.items[i], expected.items[i])
    else ScalarEqual(actual, expected)
  }

  predicate Equal(actual: Json, expected: Json)
    decreases expected
  {
    if expected.Obj? then
      && actual.Obj? && actual.fields.Keys == expected.fields.Keys
      && forall key <- expected.fields :: Equal(actual.fields[key], expected.fields[key])
    else if expected.Arr? then
      && actual.Arr? && |actual.items| == |expected.items|
      && forall i :: 0 <= i < |expected.items| ==> Equal(actual.items[i], expected.items[i])
    else ScalarEqual(actual, expected)
  }

  /** What a scalar equals: itself, and for numbers the same number in the other form. */
  predicate SameScalar(actual: Json, expected: Json) {
    match expected
    case Null => actual.Null?
    case Bool(truth) => actual.Bool? && actual.truth == truth
    case Str(text) => actual.Str? && actual.text == text
    case Int(n) => (actual.Int? && actual.number == n) || (actual.Floating? && actual.float == Finite(n as real))
    case Floating(Finite(x)) =>
      (actual.Floating? && actual.float == Finite(x)) || (actual.Int? && actual.number as real == x)
    case Floating(Infinity(negative)) => actual.Floating? && actual.float == Infinity(negative)
    case Floating(NaN) => false
    case Arr(_) => false
    case Obj(_) => false
  }

  predicate IsScalar(j: Json) { !j.Arr? && !j.Obj? }

  /** On scalars both comparisons are that. */
  lemma ScalarsCompare(actual: Json, expected: Json)
    requires IsScalar(expected)
    ensures Equal(actual, expected) <==> SameScalar(actual, expected)
    ensures Contains(actual, expected) <==> SameScalar(actual, expected)
  {
  }

  predicate FloatFree(j: Json)
    decreases j
  {
    if j.Obj? then forall key <- j.fields :: FloatFree(j.fields[key])
    else if j.Arr? then forall i :: 0 <= i < |j.items| ==> FloatFree(j.items[i])
    else !j.Floating?
  }

  /** Without floats equality is identity. */
  lemma {:induction false} EqualIsIdentity(a: Json, b: Json)
    requires FloatFree(a) && FloatFree(b)
    ensures Equal(a, b) <==> a == b
    decreases b
  {
    if a.Obj? && b.Obj? {
      forall key <- b.fields | key in a.fields ensures Equal(a.fields[key], b.fields[key]) <==> a.fields[key] == b.fields[key] {
        EqualIsIdentity(a.fields[key], b.fields[key]);
      }
      if Equal(a, b) { assert a.fields == b.fields; }
    } else if a.Arr? && b.Arr? {
      forall i | 0 <= i < |b.items| && i < |a.items| ensures Equal(a.items[i], b.items[i]) <==> a.items[i] == b.items[i] {
        EqualIsIdentity(a.items[i], b.items[i]);
      }
      if Equal(a, b) { assert a.items == b.items; }
    }
  }

  /** Numbers are compared exactly across the two forms, and no number equals anything else. */
  lemma NumbersCompare(n: int, m: int, x: real, y: real, j: Json)
    ensures Equal(Int(n), Int(m)) <==> n == m
    ensures Equal(Int(n), Floating(Finite(x))) <==> n as real == x
    ensures Equal(Floating(Finite(x)), Int(n)) <==> n as real == x
    ensures Equal(Floating(Finite(x)), Floating(Finite(y))) <==> x == y
    ensures Equal(j, Floating(Infinity(true))) <==> j == Floating(Infinity(true))
    ensures Equal(j, Floating(Infinity(false))) <==> j == Floating(Infinity(false))
    ensures !Equal(j, Floating(NaN)) && !Equal(Floating(NaN), j)
    ensures !j.Int? && !j.Floating? ==> !Equal(j, Int(n)) && !Equal(Int(n), j)
    ensures !j.Int? && !j.Floating? ==> !Equal(j, Floating(Finite(x))) && !Equal(Floating(Finite(x)), j)
  {
  }

  /** No NaN anywhere inside. */
  predicate Ordinary(j: Json)
    decreases j
  {
    if j.Obj? then forall key <- j.fields :: Ordinary(j.fields[key])
    else if j.Arr? then forall i :: 0 <= i < |j.items| ==> Ordinary(j.items[i])
    else j != Floating(NaN)
  }

  /** What `json.dumps` with `allow_nan=False` accepts; a response that it refuses
      is never compared. */
  predicate Storable(j: Json)
    decreases j
  {
    if j.Obj? then forall key <- j.fields :: Storable(j.fields[key])
    else if j.Arr? then forall i :: 0 <= i < |j.items| ==> Storable(j.items[i])
    else j.Floating? ==> j.float.Finite?
  }

  /** A value contains itself exactly when it has no NaN inside. */
  lemma {:induction false} ContainsIsReflexiveIff(j: Json)
    ensures Contains(j, j) <==> Ordinary(j)
    decreases j
  {
    if j.Obj? {
      forall key <- j.fields ensures Contains(j.fields[key], j.fields[key]) <==> Ordinary(j.fields[key]) {
        ContainsIsReflexiveIff(j.fields[key]);
      }
    } else if j.Arr? {
      forall i | 0 <= i < |j.items| ensures Contains(j.items[i], j.items[i]) <==> Ordinary(j.items[i]) {
        ContainsIsReflexiveIff(j.items[i]);
      }
    }
  }

  /** Everything a probe compares is free of NaN. */
  lemma {:induction false} StorableIsOrdinary(j: Json)
    requires Storable(j)
    ensures Ordinary(j)
    decreases j
  {
    if j.Obj? {
      forall key <- j.fields ensures Ordinary(j.fields[key]) { StorableIsOrdinary(j.fields[key]); }
    } else if j.Arr? {
      forall i | 0 <= i < |j.items| ensures Ordinary(j.items[i]) { StorableIsOrdinary(j.items[i]); }
    }
  }

  lemma {:induction false} ContainsIsTransitive(a: Json, b: Json, c: Json)
    requires Contains(a, b) && Contains(b, c)
    ensures Contains(a, c)
    decreases c
  {
    if c.Obj? {
      forall key <- c.fields ensures key in a.fields && Contains(a.fields[key], c.fields[key]) {
        ContainsIsTransitive(a.fields[key], b.fields[key], c.fields[key]);
      }
    } else if c.Arr? {
      forall i | 0 <= i < |c.items| ensures Contains(a.items[i], c.items[i]) {
        ContainsIsTransitive(a.items[i], b.items[i], c.items[i]);
      }
    }
  }

  /** Containment both ways is equality. */
  lemma {:induction false} MutualContainmentIsEquality(a: Json, b: Json)
    ensures Contains(a, b) && Contains(b, a) <==> Equal(a, b)
    decreases b
  {
    if b.Obj? && a.Obj? {
      forall key <- b.fields | key in a.fields
        ensures Contains(a.fields[key], b.fields[key]) && Contains(b.fields[key], a.fields[key])
                <==> Equal(a.fields[key], b.fields[key])
      {
        MutualContainmentIsEquality(a.fields[key], b.fields[key]);
      }
      if Contains(a, b) && Contains(b, a) {
        assert a.fields.Keys == b.fields.Keys;
      }
    } else if b.Arr? && a.Arr? {
      forall i | 0 <= i < |b.items| && i < |a.items|
        ensures Contains(a.items[i], b.items[i]) && Contains(b.items[i], a.items[i])
                <==> Equal(a.items[i], b.items[i])
      {
        MutualContainmentIsEquality(a.items[i], b.items[i]);
      }
    }
  }

  lemma EqualIsSymmetric(a: Json, b: Json)
    ensures Equal(a, b) <==> Equal(b, a)
  {
    MutualContainmentIsEquality(a, b);
    MutualContainmentIsEquality(b, a);
  }

  lemma EqualIsTransitive(a: Json, b: Json, c: Json)
    requires Equal(a, b) && Equal(b, c)
    ensures Equal(a, c)
  {
    MutualContainmentIsEquality(a, b);
    MutualContainmentIsEquality(b, c);
    ContainsIsTransitive(a, b, c);
    ContainsIsTransitive(c, b, a);
    MutualContainmentIsEquality(a, c);
  }

  // ------------------------------------------------------------ paths

  datatype Token = Member(name: string) | Index(position: nat)

  /** The value at a path; `None` where the lookup raises. */
  function Resolve(j: Json, path: seq<Token>): Option<Json>
    decreases |path|
  {
    if path == [] then Some(j)
    else match path[0]
         case Member(name) =>
           if j.Obj? && name in j.fields then Resolve(j.fields[name], path[1..]) else None
         case Index(position) =>
           if j.Arr? && position < |j.items| then Resolve(j.items[position], path[1..]) else None
  }

  /** A path into the contained value leads to a contained value. */
  lemma {:induction false} ContainmentFollowsPaths(actual: Json, expected: Json, path: seq<Token>)
    requires Contains(actual, expected) && Resolve(expected, path).Some?
    ensures Resolve(actual, path).Some? && Contains(Resolve(actual, path).value, Resolve(expected, path).value)
    decreases |path|
  {
    if path != [] {
      if path[0].Member? {
        ContainmentFollowsPaths(actual.fields[path[0].name], expected.fields[path[0].name], path[1..]);
      } else {
        ContainmentFollowsPaths(actual.items[path[0].position], expected.items[path[0].position], path[1..]);
      }
    }
  }

  /** Containment is exactly agreement on every path: wherever the expected value has
      a scalar the actual value has an equal one, and containers are of one kind. */
  ghost predicate Agrees(actual: Json, expected: Json) {
    forall path :: Resolve(expected, path).Some? ==>
      Resolve(actual, path).Some? && Fits(Resolve(actual, path).value, Resolve(expected, path).value)
  }

  predicate Fits(actual: Json, expected: Json) {
    if expected.Obj? then actual.Obj? else if expected.Arr? then actual.Arr? else SameScalar(actual, expected)
  }

  lemma ResolveThrough(j: Json, token: Token, path: seq<Token>)
    requires Resolve(j, [token]).Some?
    ensures Resolve(j, [token] + path) == Resolve(Resolve(j, [token]).value, path)
  {
    assert ([token] + path)[1..] == path && [token][1..] == [];
    if token.Member? {
      assert Resolve(j.fields[token.name], []) == Some(j.fields[token.name]);
    } else {
      assert Resolve(j.items[token.position], []) == Some(j.items[token.position]);
    }
  }

  lemma AgreesInside(actual: Json, expected: Json, token: Token)
    requires Agrees(actual, expected) && Resolve(expected, [token]).Some?
    ensures Resolve(actual, [token]).Some?
    ensures Agrees(Resolve(actual, [token]).value, Resolve(expected, [token]).value)
  {
    assert Resolve(actual, [token]).Some?;
    var a, e := Resolve(actual, [token]).value, Resolve(expected, [token]).value;
    forall path | Resolve(e, path).Some?
      ensures Resolve(a, path).Some? && Fits(Resolve(a, path).value, Resolve(e, path).value)
    {
      ResolveThrough(expected, token, path);
      ResolveThrough(actual, token, path);
    }
  }

  lemma {:induction false} ContainsIffAgrees(actual: Json, expected: Json)
    ensures Contains(actual, expected) <==> Agrees(actual, expected)
    decreases expected
  {
    if Contains(actual, expected) {
      forall path | Resolve(expected, path).Some?
        ensures Resolve(actual, path).Some? && Fits(Resolve(actual, path).value, Resolve(expected, path).value)
      {
        ContainmentFollowsPaths(actual, expected, path);
      }
    }
    if Agrees(actual, expected) {
      assert Resolve(expected, []).Some? && Fits(actual, expected);
      if expected.Obj? {
        forall key <- expected.fields ensures key in actual.fields && Contains(actual.fields[key], expected.fields[key]) {
          AgreesInside(actual, expected, Member(key));
          ContainsIffAgrees(actual.fields[key], expected.fields[key]);
        }
      } else if expected.Arr? {
        forall i | 0 <= i < |expected.items| ensures i < |actual.items| && Contains(actual.items[i], expected.items[i]) {
          AgreesInside(actual, expected, Index(i));
          ContainsIffAgrees(actual.items[i], expected.items[i]);
        }
        if |expected.items| > 0 { AgreesInside(actual, expected, Index(|expected.items| - 1)); }
      }
    }
  }

  /** Equality is agreement on every path, both ways. */
  lemma EqualIffAgreesBothWays(a: Json, b: Json)
    ensures Equal(a, b) <==> Agrees(a, b) && Agrees(b, a)
  {
    MutualContainmentIsEquality(a, b);
    ContainsIffAgrees(a, b);
    ContainsIffAgrees(b, a);
  }
}
