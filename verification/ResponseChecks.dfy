/** The checks of a probe response against the assertions of its request. */
module ResponseChecks {
  import opened Options
  import opened Json
  import JsonPath

  type Headers = map<string, string>

  /** The normalised assertions of a request; an absent one asks nothing. */
  datatype Assertions = Assertions(
    headers: Headers,
    bodyEquals: Option<string>,
    bodyContains: seq<string>,
    jsonEquals: Option<Json>,
    jsonContains: Option<Json>,
    jsonPathEquals: map<string, Json>)

  /** `decoded` is absent when the body is not JSON that can be stored. */
  datatype Response = Response(headers: Headers, body: string, decoded: Option<Json>)

  datatype Failure =
    | HeaderFailed | BodyEqualityFailed | BodyContentFailed
    | JsonEqualityFailed | JsonSubsetFailed | JsonPathFailed(path: string)

  predicate OccursAt(item: string, body: string, i: nat) {
    i + |item| <= |body| && body[i..i + |item|] == item
  }

  ghost predicate Occurs(item: string, body: string) {
    exists i: nat :: OccursAt(item, body, i)
  }

  method Find(item: string, body: string) returns (found: bool)
    ensures found <==> Occurs(item, body)
  {
    for i := 0 to |body| + 1
      invariant forall k: nat :: k < i ==> !OccursAt(item, body, k)
    {
      if OccursAt(item, body, i) {
        return true;
      }
    }
    return false;
  }

  /** The value at a path written as text; `None` where the source raises. */
  function At(j: Json, path: string): Option<Json> {
    match JsonPath.Tokens(path)
    case Err(_) => None
    case Ok(tokens) => Resolve(j, tokens)
  }

  /** The walk along one path, token by token. */
  method Walk(j: Json, path: string) returns (r: Option<Json>)
    ensures r == At(j, path)
  {
    var tokens := JsonPath.Tokenize(path);
    if tokens.Err? {
      return None;
    }
    var actual := j;
    for i := 0 to |tokens.value|
      invariant Resolve(j, tokens.value) == Resolve(actual, tokens.value[i..])
    {
      var token := tokens.value[i];
      assert tokens.value[i..][0] == token && tokens.value[i..][1..] == tokens.value[i + 1..];
      if token.Index? {
        if !actual.Arr? || token.position >= |actual.items| {
          return None;
        }
        actual := actual.items[token.position];
      } else {
        if !actual.Obj? || token.name !in actual.fields {
          return None;
        }
        actual := actual.fields[token.name];
      }
    }
    return Some(actual);
  }

  predicate PathHolds(r: Response, path: string, expected: Json) {
    r.decoded.Some? && At(r.decoded.value, path).Some? && Equal(At(r.decoded.value, path).value, expected)
  }

  /** What each assertion asks of a response. */
  ghost predicate Fails(a: Assertions, r: Response, f: Failure) {
    match f
    case HeaderFailed => exists n <- a.headers :: n !in r.headers || r.headers[n] != a.headers[n]
    case BodyEqualityFailed => a.bodyEquals.Some? && r.body != a.bodyEquals.value
    case BodyContentFailed => exists item <- a.bodyContains :: !Occurs(item, r.body)
    case JsonEqualityFailed => a.jsonEquals.Some? && !(r.decoded.Some? && Equal(r.decoded.value, a.jsonEquals.value))
    case JsonSubsetFailed => a.jsonContains.Some? && !(r.decoded.Some? && Contains(r.decoded.value, a.jsonContains.value))
    case JsonPathFailed(path) => path in a.jsonPathEquals && !PathHolds(r, path, a.jsonPathEquals[path])
  }

  method HeadersFail(a: Assertions, r: Response) returns (failed: bool)
    ensures failed <==> Fails(a, r, HeaderFailed)
  {
    var left := a.headers.Keys;
    while left != {}
      invariant left <= a.headers.Keys
      invariant forall n <- a.headers.Keys - left :: n in r.headers && r.headers[n] == a.headers[n]
      decreases |left|
    {
      var n :| n in left;
      if n !in r.headers || r.headers[n] != a.headers[n] {
        return true;
      }
      left := left - {n};
    }
    return false;
  }

  method ContentFails(a: Assertions, r: Response) returns (failed: bool)
    ensures failed <==> Fails(a, r, BodyContentFailed)
  {
    for i := 0 to |a.bodyContains|
      invariant forall k :: 0 <= k < i ==> Occurs(a.bodyContains[k], r.body)
    {
      var found := Find(a.bodyContains[i], r.body);
      if !found {
        assert a.bodyContains[i] in a.bodyContains;
        return true;
      }
    }
    return false;
  }

  /** The failures of the paths, one each. */
  method PathFailures(a: Assertions, r: Response) returns (failures: seq<Failure>)
    ensures forall f :: f in failures <==> f.JsonPathFailed? && Fails(a, r, f)
  {
    failures := [];
    var left := a.jsonPathEquals.Keys;
    while left != {}
      invariant left <= a.jsonPathEquals.Keys
      invariant forall f :: f in failures <==>
        f.JsonPathFailed? && f.path in a.jsonPathEquals.Keys - left && !PathHolds(r, f.path, a.jsonPathEquals[f.path])
      decreases |left|
    {
      var path :| path in left;
      var actual: Option<Json> := None;
      if r.decoded.Some? {
        actual := Walk(r.decoded.value, path);
      }
      if actual.None? || !Equal(actual.value, a.jsonPathEquals[path]) {
        failures := failures + [JsonPathFailed(path)];
      }
      left := left - {path};
    }
  }

  /** Every failed assertion is reported, and nothing else. */
  method AssertResponse(a: Assertions, r: Response) returns (failures: seq<Failure>)
    ensures forall f :: f in failures <==> Fails(a, r, f)
  {
    failures := [];
    var failed := HeadersFail(a, r);
    if failed {
      failures := failures + [HeaderFailed];
    }
    if a.bodyEquals.Some? && r.body != a.bodyEquals.value {
      failures := failures + [BodyEqualityFailed];
    }
    failed := ContentFails(a, r);
    if failed {
      failures := failures + [BodyContentFailed];
    }
    if a.jsonEquals.Some? && (r.decoded.None? || !Equal(r.decoded.value, a.jsonEquals.value)) {
      failures := failures + [JsonEqualityFailed];
    }
    if a.jsonContains.Some? && (r.decoded.None? || !Contains(r.decoded.value, a.jsonContains.value)) {
      failures := failures + [JsonSubsetFailed];
    }
    ghost var before := failures;
    assert forall f :: f in before <==> !f.JsonPathFailed? && Fails(a, r, f);
    var paths := PathFailures(a, r);
    failures := failures + paths;
  }

  /** A response with more in it passes wherever a smaller one passes the subset check and
      the path checks. */
  lemma LargerResponsePasses(a: Assertions, r: Response, more: Json)
    requires r.decoded.Some? && Contains(more, r.decoded.value)
    ensures !Fails(a, r, JsonSubsetFailed) ==> !Fails(a, r.(decoded := Some(more)), JsonSubsetFailed)
    ensures forall path <- a.jsonPathEquals :: PathHolds(r, path, a.jsonPathEquals[path]) && IsScalar(a.jsonPathEquals[path]) ==>
              PathHolds(r.(decoded := Some(more)), path, a.jsonPathEquals[path])
  {
    if a.jsonContains.Some? && Contains(r.decoded.value, a.jsonContains.value) {
      ContainsIsTransitive(more, r.decoded.value, a.jsonContains.value);
    }
    forall path <- a.jsonPathEquals | PathHolds(r, path, a.jsonPathEquals[path]) && IsScalar(a.jsonPathEquals[path])
      ensures PathHolds(r.(decoded := Some(more)), path, a.jsonPathEquals[path])
    {
      ScalarAtPath(r.decoded.value, more, JsonPath.Tokens(path).value, a.jsonPathEquals[path]);
    }
  }

  lemma ScalarAtPath(small: Json, more: Json, tokens: seq<Token>, expected: Json)
    requires Contains(more, small) && Resolve(small, tokens).Some? && IsScalar(expected)
    requires Equal(Resolve(small, tokens).value, expected)
    ensures Resolve(more, tokens).Some? && Equal(Resolve(more, tokens).value, expected)
  {
    ContainmentFollowsPaths(more, small, tokens);
    var s, m := Resolve(small, tokens).value, Resolve(more, tokens).value;
    MutualContainmentIsEquality(s, expected);
    ContainsIsTransitive(m, s, expected);
    ScalarsCompare(m, expected);
  }
}
