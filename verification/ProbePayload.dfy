/** Normalising a probe request, and repairing one once. */
module ProbePayload {
  import opened Options
  import opened Json
  import JsonPath

  type Fields = map<string, Json>

  /** Library code the checks call: whether the serialised object fits the size limit,
      whether a route is safe, whether text is Base64 within a limit, whether
      descriptors are complete and define the route's method, and `str.upper`. */
  datatype Library = Library(
    bounded: Fields -> bool,
    routeOk: (string, bool) -> bool,
    base64Ok: string -> bool,
    descriptorsOk: (string, Option<string>) -> bool,
    upper: string -> string)

  /** Names that are already upper case are left alone. */
  ghost predicate Sane(lib: Library) {
    forall s :: s in GRPC_CODES || s in HTTP_METHODS ==> lib.upper(s) == s
  }

  const GRPC_CODES: seq<string> := [
    "OK", "CANCELLED", "UNKNOWN", "INVALID_ARGUMENT", "DEADLINE_EXCEEDED",
    "NOT_FOUND", "ALREADY_EXISTS", "PERMISSION_DENIED", "RESOURCE_EXHAUSTED",
    "FAILED_PRECONDITION", "ABORTED", "OUT_OF_RANGE", "UNIMPLEMENTED",
    "INTERNAL", "UNAVAILABLE", "DATA_LOSS", "UNAUTHENTICATED"]
  const HTTP_METHODS: set<string> := {"GET", "POST", "PUT", "PATCH", "DELETE", "HEAD", "OPTIONS"}
  const COMMON_FIELDS: set<string> :=
    {"protocol", "path", "service_name", "target_port", "headers", "body", "assertions"}
  const HTTP_FIELDS: set<string> := COMMON_FIELDS + {"method", "query_params"}
  const GRPC_FIELDS: set<string> :=
    COMMON_FIELDS + {"method", "query_params", "body_base64", "descriptor_set_base64", "reflection"}
  const ASSERTION_FIELDS: set<string> :=
    {"expected_headers", "body_equals", "body_contains", "json_equals", "json_contains", "json_path_equals"}
  const FORBIDDEN_HEADERS: set<string> :=
    {"host", "connection", "content-length", "transfer-encoding", "upgrade",
     "proxy-authorization", "proxy-connection", "te", "trailer"}

  // ------------------------------------------------------------ headers

  function LowerChar(c: char): char {
    if 'A' <= c <= 'Z' then (c as int + 32) as char else c
  }

  /** `str.lower` on header names, which are ASCII. */
  function Lower(s: string): (r: string)
    ensures |r| == |s|
  {
    seq(|s|, i requires 0 <= i < |s| => LowerChar(s[i]))
  }

  predicate HeaderChar(c: char) {
    '0' <= c <= '9' || 'A' <= c <= 'Z' || 'a' <= c <= 'z' || c in "!#$%&'*+.^_`|~-"
  }

  predicate HeaderName(s: string) {
    s != "" && forall i :: 0 <= i < |s| ==> HeaderChar(s[i])
  }

  predicate HeaderText(j: Json) {
    j.Str? && |j.text| <= 8192 && forall i :: 0 <= i < |j.text| ==> 32 <= j.text[i] as int < 127
  }

  predicate StartsWith(s: string, prefix: string) {
    |prefix| <= |s| && s[..|prefix|] == prefix
  }

  predicate EndsWith(s: string, suffix: string) {
    |suffix| <= |s| && s[|s| - |suffix|..] == suffix
  }

  predicate Forbidden(lower: string) {
    lower in FORBIDDEN_HEADERS || StartsWith(lower, ":") || StartsWith(lower, "grpc-")
  }

  predicate HeaderOk(name: string, content: Json, request: bool) {
    HeaderName(name) && HeaderText(content) && !(request && Forbidden(Lower(name)))
  }

  predicate DistinctWhenLowered(names: set<string>) {
    forall a <- names, b <- names :: Lower(a) == Lower(b) ==> a == b
  }

  predicate AllOk(fields: Fields, names: set<string>, request: bool)
    requires names <= fields.Keys
  {
    forall n <- names :: HeaderOk(n, fields[n], request)
  }

  predicate HeadersOk(j: Json, request: bool) {
    && j.Obj? && |j.fields| <= 100
    && AllOk(j.fields, j.fields.Keys, request)
    && DistinctWhenLowered(j.fields.Keys)
  }

  function Lowered(fields: Fields): Fields
    requires DistinctWhenLowered(fields.Keys)
  {
    map n <- fields :: Lower(n) := fields[n]
  }

  function LoweredJson(j: Json): Json
    requires j.Obj? && DistinctWhenLowered(j.fields.Keys)
  {
    Obj(Lowered(j.fields))
  }

  lemma LowerTwice(s: string)
    ensures Lower(Lower(s)) == Lower(s)
    ensures HeaderName(s) ==> HeaderName(Lower(s))
  {
    forall i | 0 <= i < |s| ensures LowerChar(Lower(s)[i]) == Lower(s)[i] && (HeaderChar(s[i]) ==> HeaderChar(Lower(s)[i])) {
    }
  }

  lemma {:induction false} ImageSize(names: set<string>)
    ensures |set n <- names :: Lower(n)| <= |names|
  {
    if names != {} {
      var x :| x in names;
      var rest := names - {x};
      ImageSize(rest);
      assert (set n <- names :: Lower(n)) == (set n <- rest :: Lower(n)) + {Lower(x)};
    }
  }

  lemma LoweredHeaderOk(n: string, content: Json, request: bool)
    requires HeaderOk(n, content, request)
    ensures HeaderOk(Lower(n), content, request)
  {
    LowerTwice(n);
  }

  lemma LoweredEntry(fields: Fields, m: string)
    requires DistinctWhenLowered(fields.Keys) && m in Lowered(fields)
    ensures Lower(m) == m && exists n :: n in fields && Lower(n) == m && Lowered(fields)[m] == fields[n]
  {
    var n :| n in fields && Lower(n) == m;
    LowerTwice(n);
  }

  lemma LoweredIsFixed(fields: Fields)
    requires forall m <- fields :: Lower(m) == m
    ensures DistinctWhenLowered(fields.Keys) && Lowered(fields) == fields
  {
  }

  /** Accepted headers stay accepted and unchanged after lowering. */
  lemma LoweredAgain(j: Json, request: bool)
    requires HeadersOk(j, request)
    ensures HeadersOk(LoweredJson(j), request) && LoweredJson(LoweredJson(j)) == LoweredJson(j)
  {
    var low := Lowered(j.fields);
    assert low.Keys == set n <- j.fields.Keys :: Lower(n);
    ImageSize(j.fields.Keys);
    assert |low| == |low.Keys|;
    forall m <- low ensures Lower(m) == m && HeaderOk(m, low[m], request) {
      LoweredEntry(j.fields, m);
      var n :| n in j.fields && Lower(n) == m && low[m] == j.fields[n];
      LoweredHeaderOk(n, j.fields[n], request);
    }
    LoweredIsFixed(low);
  }

  method ValidateHeaders(j: Json, request: bool) returns (r: Option<Json>)
    ensures r == if HeadersOk(j, request) then Some(LoweredJson(j)) else None
  {
    if !j.Obj? || |j.fields| > 100 {
      return None;
    }
    var result: Fields := map[];
    ghost var done: set<string> := {};
    var left := j.fields;
    while left != map[]
      invariant done + left.Keys == j.fields.Keys && done !! left.Keys
      invariant forall n <- left :: left[n] == j.fields[n]
      invariant AllOk(j.fields, done, request) && IsLowered(j.fields, done, result)
      decreases |left|
    {
      var name :| name in left;
      var added := AddHeader(j.fields, done, result, name, request);
      if added.None? {
        return None;
      }
      result := added.value;
      done := done + {name};
      left := left - {name};
    }
    assert done == j.fields.Keys;
    LoweredIsAll(j.fields, result);
    return Some(Obj(result));
  }

  /** One header: refused when it is malformed, forbidden or a repeat. */
  method AddHeader(fields: Fields, ghost done: set<string>, result: Fields, name: string, request: bool)
    returns (r: Option<Fields>)
    requires done <= fields.Keys && AllOk(fields, done, request) && IsLowered(fields, done, result)
    requires name in fields && name !in done
    ensures r.None? ==> !AllOk(fields, fields.Keys, request) || !DistinctWhenLowered(fields.Keys)
    ensures r.Some? ==> AllOk(fields, done + {name}, request) && IsLowered(fields, done + {name}, r.value)
  {
    var ok := HeaderOk(name, fields[name], request);
    OneHeader(fields, done, name, request);
    if !ok {
      return None;
    }
    if Lower(name) in result {
      SharedName(fields, done, result, name);
      return None;
    }
    LowerOneMore(fields, done, result, name);
    return Some(result[Lower(name) := fields[name]]);
  }

  /** The loop's dictionary: the names done so far, lowered and without repeats. */
  predicate IsLowered(fields: Fields, done: set<string>, result: Fields)
    requires done <= fields.Keys
  {
    && DistinctWhenLowered(done)
    && result.Keys == (set n <- done :: Lower(n))
    && forall n <- done :: result[Lower(n)] == fields[n]
  }

  lemma OneHeader(fields: Fields, done: set<string>, name: string, request: bool)
    requires name in fields && done <= fields.Keys
    ensures AllOk(fields, fields.Keys, request) ==> HeaderOk(name, fields[name], request)
    ensures AllOk(fields, done, request) && HeaderOk(name, fields[name], request) ==>
              AllOk(fields, done + {name}, request)
  {
  }

  lemma SharedName(fields: Fields, done: set<string>, result: Fields, name: string)
    requires done <= fields.Keys && IsLowered(fields, done, result)
    requires name in fields && name !in done && Lower(name) in result
    ensures !DistinctWhenLowered(fields.Keys)
  {
    var n :| n in done && Lower(n) == Lower(name);
  }

  lemma LowerOneMore(fields: Fields, done: set<string>, result: Fields, name: string)
    requires done <= fields.Keys && IsLowered(fields, done, result)
    requires name in fields && Lower(name) !in result
    ensures IsLowered(fields, done + {name}, result[Lower(name) := fields[name]])
  {
    assert forall n <- done :: Lower(n) in result;
  }

  lemma LoweredIsAll(fields: Fields, result: Fields)
    requires IsLowered(fields, fields.Keys, result)
    ensures result == Lowered(fields)
  {
    assert result.Keys == Lowered(fields).Keys;
    forall m <- result ensures result[m] == Lowered(fields)[m] {
      var n :| n in fields && Lower(n) == m;
    }
  }

  // ------------------------------------------------------------ the parts of a request

  function ProtocolOf(f: Fields): Json {
    if "protocol" in f then f["protocol"] else Str("http")
  }

  function HeadersOf(f: Fields): Json {
    if "headers" in f then f["headers"] else Obj(map[])
  }

  predicate IsHttp(f: Fields) { ProtocolOf(f) == Str("http") }

  predicate ProtocolOk(f: Fields) {
    (IsHttp(f) && f.Keys <= HTTP_FIELDS) || (ProtocolOf(f) == Str("grpc") && f.Keys <= GRPC_FIELDS)
  }

  /** The route given by the caller, else the payload's own path. */
  predicate RouteOk(lib: Library, f: Fields, route: Option<string>) {
    && (route.Some? ==> lib.routeOk(route.value, !IsHttp(f)))
    && ("path" in f ==> f["path"].Str? && lib.routeOk(f["path"].text, !IsHttp(f))
                        && (route.Some? ==> f["path"] == Str(route.value)))
  }

  function RouteOf(f: Fields, route: Option<string>): Option<string> {
    if route.Some? then route else if "path" in f && f["path"].Str? then Some(f["path"].text) else None
  }

  predicate TargetOk(f: Fields) {
    && ("service_name" in f ==> f["service_name"].Str? && 1 <= |f["service_name"].text| <= 256)
    && ("target_port" in f ==> f["target_port"].Int? && 1 <= f["target_port"].number <= 65535)
  }

  function ExpectedKey(f: Fields): string {
    if IsHttp(f) then "expected_status_list" else "expected_grpc_status_list"
  }

  predicate HttpCodeOk(j: Json) { j.Int? && 100 <= j.number <= 599 }

  predicate GrpcCodeOk(lib: Library, j: Json) {
    (j.Int? && 0 <= j.number < |GRPC_CODES|) || (j.Str? && lib.upper(j.text) in GRPC_CODES)
  }

  function GrpcCode(lib: Library, j: Json): Json
    requires GrpcCodeOk(lib, j)
  {
    if j.Int? then Str(GRPC_CODES[j.number]) else Str(lib.upper(j.text))
  }

  predicate ExpectedOk(lib: Library, http: bool, j: Json) {
    && j.Arr? && 1 <= |j.items| <= 500
    && forall i :: 0 <= i < |j.items| ==> if http then HttpCodeOk(j.items[i]) else GrpcCodeOk(lib, j.items[i])
  }

  function Expected(lib: Library, http: bool, j: Json): Json
    requires ExpectedOk(lib, http, j)
  {
    if http then j
    else Arr(seq(|j.items|, i requires 0 <= i < |j.items| => GrpcCode(lib, j.items[i])))
  }

  predicate ParameterOk(j: Json) {
    if j.Arr? then forall i :: 0 <= i < |j.items| ==> !j.items[i].Arr? && !j.items[i].Obj? else !j.Obj?
  }

  predicate HttpOk(lib: Library, f: Fields) {
    && {"method", "query_params", "body"} <= f.Keys
    && f["method"].Str? && lib.upper(f["method"].text) in HTTP_METHODS
    && f["query_params"].Obj? && |f["query_params"].fields| <= 200
    && forall k <- f["query_params"].fields :: ParameterOk(f["query_params"].fields[k])
  }

  predicate GrpcBodyOk(lib: Library, f: Fields) {
    if "body_base64" in f then
      && ("body" in f ==> f["body"] == Null)
      && f["body_base64"].Str? && lib.base64Ok(f["body_base64"].text)
    else
      && "body" in f
      && ("reflection" in f && f["reflection"] == Bool(false) ==> "descriptor_set_base64" in f)
  }

  predicate GrpcOk(lib: Library, f: Fields, route: Option<string>) {
    && (HeadersOf(f).Obj? ==> forall n <- HeadersOf(f).fields :: !EndsWith(Lower(n), "-bin"))
    && ("method" in f ==> f["method"] == Str("POST"))
    && ("query_params" in f ==> f["query_params"] == Obj(map[]))
    && ("reflection" in f ==> f["reflection"].Bool?)
    && ("descriptor_set_base64" in f ==>
          f["descriptor_set_base64"].Str? && lib.descriptorsOk(f["descriptor_set_base64"].text, RouteOf(f, route)))
    && GrpcBodyOk(lib, f)
  }

  predicate ContainsOk(j: Json) {
    j.Str? || (j.Arr? && forall i :: 0 <= i < |j.items| ==> j.items[i].Str?)
  }

  function ContainsList(j: Json): Json {
    if j.Str? then Arr([j]) else j
  }

  predicate PathsOk(j: Json) {
    j.Obj? && |j.fields| <= 100 && forall p <- j.fields :: JsonPath.Tokens(p).Ok?
  }

  predicate AssertionsOk(lib: Library, http: bool, key: string, a: Fields) {
    && a.Keys <= ASSERTION_FIELDS + {key}
    && key in a && ExpectedOk(lib, http, a[key])
    && ("expected_headers" in a ==> HeadersOk(a["expected_headers"], false))
    && TextsOk(a)
  }

  function NormalAssertion(lib: Library, http: bool, key: string, a: Fields, k: string): Json
    requires AssertionsOk(lib, http, key, a) && k in a
  {
    if k == key then Expected(lib, http, a[k])
    else if k == "expected_headers" then LoweredJson(a[k])
    else if k == "body_contains" then ContainsList(a[k])
    else a[k]
  }

  function NormalAssertions(lib: Library, http: bool, key: string, a: Fields): Fields
    requires AssertionsOk(lib, http, key, a)
  {
    map k <- a :: NormalAssertion(lib, http, key, a, k)
  }

  // ------------------------------------------------------------ validation

  predicate Acceptable(lib: Library, f: Fields, route: Option<string>) {
    && Storable(Obj(f)) && lib.bounded(f)
    && ProtocolOk(f) && RouteOk(lib, f, route) && TargetOk(f)
    && HeadersOk(HeadersOf(f), true)
    && "assertions" in f && f["assertions"].Obj?
    && AssertionsOk(lib, IsHttp(f), ExpectedKey(f), f["assertions"].fields)
    && (if IsHttp(f) then HttpOk(lib, f) else GrpcOk(lib, f, route))
  }

  function NormalField(lib: Library, f: Fields, route: Option<string>, k: string): Json
    requires Acceptable(lib, f, route) && (k in f || k == "protocol" || k == "headers")
  {
    if k == "protocol" then ProtocolOf(f)
    else if k == "headers" then LoweredJson(HeadersOf(f))
    else if k == "assertions" then Obj(NormalAssertions(lib, IsHttp(f), ExpectedKey(f), f[k].fields))
    else if k == "method" && IsHttp(f) then Str(lib.upper(f[k].text))
    else f[k]
  }

  function Normal(lib: Library, f: Fields, route: Option<string>): Fields
    requires Acceptable(lib, f, route)
  {
    map k | k in f.Keys + {"protocol", "headers"} :: NormalField(lib, f, route, k)
  }

  /** `None` is the `ValueError`. */
  function Validated(lib: Library, f: Fields, route: Option<string>): Option<Fields> {
    if Acceptable(lib, f, route) then Some(Normal(lib, f, route)) else None
  }

  method NormaliseExpected(lib: Library, http: bool, j: Json) returns (r: Option<Json>)
    ensures r == if ExpectedOk(lib, http, j) then Some(Expected(lib, http, j)) else None
  {
    if !j.Arr? || j.items == [] || |j.items| > 500 {
      return None;
    }
    var normalized := [];
    for i := 0 to |j.items|
      invariant |normalized| == i
      invariant forall n :: 0 <= n < i ==>
        if http then HttpCodeOk(j.items[n]) && normalized[n] == j.items[n]
        else GrpcCodeOk(lib, j.items[n]) && normalized[n] == GrpcCode(lib, j.items[n])
    {
      if http {
        if !HttpCodeOk(j.items[i]) { return None; }
        normalized := normalized + [j.items[i]];
      } else {
        if !GrpcCodeOk(lib, j.items[i]) { return None; }
        normalized := normalized + [GrpcCode(lib, j.items[i])];
      }
    }
    assert normalized == Expected(lib, http, j).items;
    return Some(Arr(normalized));
  }

  function WithLoweredHeaders(a: Fields): Option<Fields> {
    if "expected_headers" !in a then Some(a)
    else if HeadersOk(a["expected_headers"], false) then
      Some(a["expected_headers" := LoweredJson(a["expected_headers"])])
    else None
  }

  method LowerExpectedHeaders(a: Fields) returns (r: Option<Fields>)
    ensures r == WithLoweredHeaders(a)
  {
    if "expected_headers" !in a {
      return Some(a);
    }
    var headers := ValidateHeaders(a["expected_headers"], false);
    if headers.None? {
      return None;
    }
    return Some(a["expected_headers" := headers.value]);
  }

  predicate TextsOk(a: Fields) {
    && ("body_equals" in a ==> a["body_equals"].Str?)
    && ("body_contains" in a ==> ContainsOk(a["body_contains"]))
    && ("json_path_equals" in a ==> PathsOk(a["json_path_equals"]))
  }

  function WithContainsList(a: Fields): Fields {
    if "body_contains" in a then a["body_contains" := ContainsList(a["body_contains"])] else a
  }

  /** The assertions are rewritten in place: the expected list, the headers, the texts. */
  method NormaliseAssertions(lib: Library, http: bool, key: string, a: Fields) returns (r: Option<Fields>)
    requires ExpectedName(key)
    ensures r == if AssertionsOk(lib, http, key, a) then Some(NormalAssertions(lib, http, key, a)) else None
  {
    if !(a.Keys <= ASSERTION_FIELDS + {key}) || key !in a {
      return None;
    }
    var expected := NormaliseExpected(lib, http, a[key]);
    if expected.None? {
      return None;
    }
    var assertions := a[key := expected.value];
    var lowered := LowerExpectedHeaders(assertions);
    RewriteHeaders(a, key, expected.value);
    if lowered.None? {
      return None;
    }
    assertions := lowered.value;
    if !TextsOk(assertions) {
      return None;
    }
    assertions := WithContainsList(assertions);
    Rewritten(lib, http, key, a);
    return Some(assertions);
  }

  lemma RewriteHeaders(a: Fields, key: string, expected: Json)
    requires ExpectedName(key) && key in a
    ensures var b := WithLoweredHeaders(a[key := expected]);
            && b.None? == ("expected_headers" in a && !HeadersOk(a["expected_headers"], false))
            && (b.Some? ==> TextsOk(b.value) == TextsOk(a))
  {
  }

  lemma Rewritten(lib: Library, http: bool, key: string, a: Fields)
    requires ExpectedName(key) && AssertionsOk(lib, http, key, a)
    ensures var b := WithLoweredHeaders(a[key := Expected(lib, http, a[key])]);
            b.Some? && WithContainsList(b.value) == NormalAssertions(lib, http, key, a)
  {
    var expected := Expected(lib, http, a[key]);
    RewriteHeaders(a, key, expected);
    var r := WithContainsList(WithLoweredHeaders(a[key := expected]).value);
    var n := NormalAssertions(lib, http, key, a);
    assert r.Keys == a.Keys == n.Keys;
    forall k <- a ensures r[k] == NormalAssertion(lib, http, key, a, k) {
      RewrittenAt(a, key, expected, k);
    }
  }

  lemma RewrittenAt(a: Fields, key: string, expected: Json, k: string)
    requires ExpectedName(key) && key in a && k in a
    requires "expected_headers" in a ==> HeadersOk(a["expected_headers"], false)
    ensures var b := WithLoweredHeaders(a[key := expected]);
            && b.Some? && k in WithContainsList(b.value)
            && WithContainsList(b.value)[k] ==
                 if k == key then expected
                 else if k == "expected_headers" then LoweredJson(a[k])
                 else if k == "body_contains" then ContainsList(a[k])
                 else a[k]
  {
  }

  /** Filling in the protocol changes none of the checks. */
  lemma ProtocolFilledIn(lib: Library, f: Fields, route: Option<string>)
    ensures var p := f["protocol" := ProtocolOf(f)];
            && IsHttp(p) == IsHttp(f) && ProtocolOk(p) == ProtocolOk(f)
            && RouteOk(lib, p, route) == RouteOk(lib, f, route) && TargetOk(p) == TargetOk(f)
            && HeadersOf(p) == HeadersOf(f)
  {
  }

  /** The payload is checked and rewritten field by field. */
  method ValidateProbePayload(lib: Library, payload: Json, route: Option<string>) returns (r: Option<Fields>)
    ensures r == if payload.Obj? then Validated(lib, payload.fields, route) else None
  {
    if !payload.Obj? || !Storable(payload) || !lib.bounded(payload.fields) {
      return None;
    }
    ghost var f := payload.fields;
    var result := payload.fields["protocol" := ProtocolOf(payload.fields)];
    ProtocolFilledIn(lib, f, route);
    if !ProtocolOk(result) || !RouteOk(lib, result, route) || !TargetOk(result) {
      return None;
    }
    var headers := ValidateHeaders(HeadersOf(result), true);
    if headers.None? {
      return None;
    }
    result := result["headers" := headers.value];
    ContentChecks(lib, f, headers.value, route);
    HeadersFilledIn(f, headers.value);
    if "assertions" !in result || !result["assertions"].Obj? {
      return None;
    }
    var assertions := NormaliseAssertions(lib, IsHttp(result), ExpectedKey(result), result["assertions"].fields);
    if assertions.None? {
      return None;
    }
    if IsHttp(result) && !HttpOk(lib, result) {
      return None;
    }
    if !IsHttp(result) && !GrpcOk(lib, result, route) {
      return None;
    }
    result := Rewrite(lib, result, assertions.value);
    RewriteIsNormal(lib, f, route);
    return Some(result);
  }

  function Rewrite(lib: Library, q: Fields, assertions: Fields): Fields
    requires IsHttp(q) ==> HttpOk(lib, q)
  {
    var a := q["assertions" := Obj(assertions)];
    if IsHttp(q) then a["method" := Str(lib.upper(q["method"].text))] else a
  }

  lemma HeadersFilledIn(f: Fields, headers: Json)
    ensures var q := f["protocol" := ProtocolOf(f)]["headers" := headers];
            IsHttp(q) == IsHttp(f) && ExpectedKey(q) == ExpectedKey(f) && SameAt(f, q, "assertions")
  {
  }

  lemma RewriteIsNormal(lib: Library, f: Fields, route: Option<string>)
    requires Acceptable(lib, f, route)
    ensures var q := f["protocol" := ProtocolOf(f)]["headers" := LoweredJson(HeadersOf(f))];
            var assertions := NormalAssertions(lib, IsHttp(f), ExpectedKey(f), f["assertions"].fields);
            (IsHttp(q) ==> HttpOk(lib, q)) && Rewrite(lib, q, assertions) == Normal(lib, f, route)
  {
    ContentChecks(lib, f, LoweredJson(HeadersOf(f)), route);
    HeadersFilledIn(f, LoweredJson(HeadersOf(f)));
    var q := f["protocol" := ProtocolOf(f)]["headers" := LoweredJson(HeadersOf(f))];
    var assertions := NormalAssertions(lib, IsHttp(f), ExpectedKey(f), f["assertions"].fields);
    NormalKeeps(lib, f, route);
    RewriteIs(lib, f, q, assertions, Normal(lib, f, route));
  }

  lemma RewriteIs(lib: Library, f: Fields, q: Fields, assertions: Fields, n: Fields)
    requires "assertions" in f && n.Keys == f.Keys + {"protocol", "headers"}
    requires q == f["protocol" := n["protocol"]]["headers" := n["headers"]]
    requires n["assertions"] == Obj(assertions) && (IsHttp(q) ==> HttpOk(lib, q))
    requires "method" in f ==> n["method"] == if IsHttp(q) then Str(lib.upper(q["method"].text)) else f["method"]
    requires forall k <- f :: k != "protocol" && k != "headers" && k != "assertions" && k != "method" ==> n[k] == f[k]
    requires IsHttp(q) ==> f["method"].Str?
    ensures Rewrite(lib, q, assertions) == n
  {
    var r := Rewrite(lib, q, assertions);
    assert r.Keys == n.Keys;
    forall k <- n ensures r[k] == n[k] {
    }
  }

  lemma Untouched(f: Fields, protocol: Json, headers: Json, k: string)
    requires k != "protocol" && k != "headers"
    ensures SameAt(f, f["protocol" := protocol]["headers" := headers], k)
  {
  }

  lemma HttpUntouched(lib: Library, f: Fields, p: Fields)
    requires SameAt(f, p, "method") && SameAt(f, p, "query_params") && SameAt(f, p, "body")
    ensures HttpOk(lib, p) == HttpOk(lib, f)
  {
  }

  lemma ContentChecks(lib: Library, f: Fields, headers: Json, route: Option<string>)
    requires HeadersOk(HeadersOf(f), true) && headers == LoweredJson(HeadersOf(f))
    ensures var q := f["protocol" := ProtocolOf(f)]["headers" := headers];
            HttpOk(lib, q) == HttpOk(lib, f) && GrpcOk(lib, q, route) == GrpcOk(lib, f, route)
  {
    var q := f["protocol" := ProtocolOf(f)]["headers" := headers];
    Untouched(f, ProtocolOf(f), headers, "method");
    Untouched(f, ProtocolOf(f), headers, "query_params");
    Untouched(f, ProtocolOf(f), headers, "body");
    Untouched(f, ProtocolOf(f), headers, "path");
    Untouched(f, ProtocolOf(f), headers, "reflection");
    Untouched(f, ProtocolOf(f), headers, "descriptor_set_base64");
    Untouched(f, ProtocolOf(f), headers, "body_base64");
    HttpUntouched(lib, f, q);
    GrpcBothWays(lib, f, q, route);
  }

  lemma GrpcBothWays(lib: Library, f: Fields, n: Fields, route: Option<string>)
    requires HeadersOk(HeadersOf(f), true) && HeadersOf(n) == LoweredJson(HeadersOf(f))
    requires SameAt(f, n, "path") && SameAt(f, n, "method") && SameAt(f, n, "query_params") && SameAt(f, n, "reflection")
    requires SameAt(f, n, "descriptor_set_base64") && SameAt(f, n, "body_base64") && SameAt(f, n, "body")
    ensures GrpcOk(lib, n, route) == GrpcOk(lib, f, route)
  {
    if GrpcOk(lib, f, route) {
      GrpcAgain(lib, f, n, route);
    }
    if GrpcOk(lib, n, route) {
      GrpcBack(lib, f, n, route);
    }
  }

  lemma GrpcBack(lib: Library, f: Fields, n: Fields, route: Option<string>)
    requires GrpcOk(lib, n, route) && HeadersOk(HeadersOf(f), true) && HeadersOf(n) == LoweredJson(HeadersOf(f))
    requires SameAt(f, n, "path") && SameAt(f, n, "method") && SameAt(f, n, "query_params") && SameAt(f, n, "reflection")
    requires SameAt(f, n, "descriptor_set_base64") && SameAt(f, n, "body_base64") && SameAt(f, n, "body")
    ensures GrpcOk(lib, f, route)
  {
    forall h <- HeadersOf(f).fields ensures !EndsWith(Lower(h), "-bin") {
      LowerTwice(h);
      assert Lower(h) in HeadersOf(n).fields;
    }
    assert RouteOf(f, route) == RouteOf(n, route);
  }

  // ------------------------------------------------------------ normal forms stay as they are

  lemma ExpectedAgain(lib: Library, http: bool, j: Json)
    requires Sane(lib) && ExpectedOk(lib, http, j)
    ensures ExpectedOk(lib, http, Expected(lib, http, j))
    ensures Expected(lib, http, Expected(lib, http, j)) == Expected(lib, http, j)
    ensures Storable(j) ==> Storable(Expected(lib, http, j))
  {
    if !http {
      var once := Expected(lib, http, j);
      forall i | 0 <= i < |once.items| ensures GrpcCodeOk(lib, once.items[i]) && GrpcCode(lib, once.items[i]) == once.items[i] {
        GrpcCodeAgain(lib, j.items[i]);
      }
    }
  }

  lemma GrpcCodeAgain(lib: Library, j: Json)
    requires Sane(lib) && GrpcCodeOk(lib, j)
    ensures GrpcCodeOk(lib, GrpcCode(lib, j)) && GrpcCode(lib, GrpcCode(lib, j)) == GrpcCode(lib, j)
  {
    var code := GrpcCode(lib, j);
    assert code.text in GRPC_CODES;
    assert lib.upper(code.text) == code.text;
  }

  lemma LoweredIsStorable(fields: Fields)
    requires DistinctWhenLowered(fields.Keys) && Storable(Obj(fields))
    ensures Storable(Obj(Lowered(fields)))
  {
    forall m <- Lowered(fields) ensures Storable(Lowered(fields)[m]) {
      LoweredEntry(fields, m);
    }
  }

  predicate ExpectedName(key: string) {
    key == "expected_status_list" || key == "expected_grpc_status_list"
  }

  lemma AssertionAgain(lib: Library, http: bool, key: string, a: Fields, k: string)
    requires Sane(lib) && ExpectedName(key) && AssertionsOk(lib, http, key, a) && k in a
    ensures var j := NormalAssertion(lib, http, key, a, k);
            && (k == key ==> ExpectedOk(lib, http, j) && Expected(lib, http, j) == j)
            && (k == "expected_headers" ==> HeadersOk(j, false) && LoweredJson(j) == j)
            && (k == "body_contains" ==> ContainsOk(j) && ContainsList(j) == j)
            && (k != key && k != "expected_headers" && k != "body_contains" ==> j == a[k])
            && (Storable(a[k]) ==> Storable(j))
  {
    if k == key {
      ExpectedAgain(lib, http, a[k]);
    } else if k == "expected_headers" {
      LoweredAgain(a[k], false);
      if Storable(a[k]) { LoweredIsStorable(a[k].fields); }
    }
  }

  lemma AssertionsAgain(lib: Library, http: bool, key: string, a: Fields)
    requires Sane(lib) && ExpectedName(key) && AssertionsOk(lib, http, key, a)
    ensures var b := NormalAssertions(lib, http, key, a);
            AssertionsOk(lib, http, key, b) && NormalAssertions(lib, http, key, b) == b
    ensures Storable(Obj(a)) ==> Storable(Obj(NormalAssertions(lib, http, key, a)))
  {
    var b := NormalAssertions(lib, http, key, a);
    forall k <- a ensures b[k] == NormalAssertion(lib, http, key, a, k) {}
    AssertionsStayOk(lib, http, key, a);
    forall k <- b ensures NormalAssertion(lib, http, key, b, k) == b[k] {
      AssertionAgain(lib, http, key, a, k);
    }
    if Storable(Obj(a)) {
      forall k <- b ensures Storable(b[k]) {
        AssertionAgain(lib, http, key, a, k);
      }
    }
  }

  lemma AssertionsStayOk(lib: Library, http: bool, key: string, a: Fields)
    requires Sane(lib) && ExpectedName(key) && AssertionsOk(lib, http, key, a)
    ensures AssertionsOk(lib, http, key, NormalAssertions(lib, http, key, a))
  {
    AssertionAgain(lib, http, key, a, key);
    if "expected_headers" in a { AssertionAgain(lib, http, key, a, "expected_headers"); }
    if "body_contains" in a { AssertionAgain(lib, http, key, a, "body_contains"); }
  }

  /** What normalising leaves alone. */
  lemma NormalKeeps(lib: Library, f: Fields, route: Option<string>)
    requires Acceptable(lib, f, route)
    ensures var n := Normal(lib, f, route);
            && n.Keys == f.Keys + {"protocol", "headers"}
            && n["protocol"] == ProtocolOf(f)
            && n["headers"] == LoweredJson(HeadersOf(f))
            && n["assertions"] == Obj(NormalAssertions(lib, IsHttp(f), ExpectedKey(f), f["assertions"].fields))
            && ("method" in f ==> n["method"] == if IsHttp(f) then Str(lib.upper(f["method"].text)) else f["method"])
            && forall k <- f :: k != "protocol" && k != "headers" && k != "assertions" && k != "method" ==> n[k] == f[k]
  {
  }

  lemma HttpAgain(lib: Library, f: Fields, n: Fields)
    requires Sane(lib) && HttpOk(lib, f) && f.Keys <= n.Keys
    requires n["method"] == Str(lib.upper(f["method"].text)) && n["query_params"] == f["query_params"]
    ensures HttpOk(lib, n) && Str(lib.upper(n["method"].text)) == n["method"]
  {
    assert lib.upper(n["method"].text) == n["method"].text;
  }

  predicate SameAt(a: Fields, b: Fields, k: string) {
    (k in a <==> k in b) && (k in a ==> a[k] == b[k])
  }

  lemma NoBinary(f: Fields, n: Fields)
    requires HeadersOk(HeadersOf(f), true) && HeadersOf(n) == LoweredJson(HeadersOf(f))
    requires forall h <- HeadersOf(f).fields :: !EndsWith(Lower(h), "-bin")
    ensures forall h <- HeadersOf(n).fields :: !EndsWith(Lower(h), "-bin")
  {
    forall h <- HeadersOf(n).fields ensures !EndsWith(Lower(h), "-bin") {
      LoweredEntry(HeadersOf(f).fields, h);
    }
  }

  lemma GrpcAgain(lib: Library, f: Fields, n: Fields, route: Option<string>)
    requires GrpcOk(lib, f, route) && HeadersOk(HeadersOf(f), true) && HeadersOf(n) == LoweredJson(HeadersOf(f))
    requires SameAt(f, n, "path") && SameAt(f, n, "method") && SameAt(f, n, "query_params") && SameAt(f, n, "reflection")
    requires SameAt(f, n, "descriptor_set_base64") && SameAt(f, n, "body_base64") && SameAt(f, n, "body")
    ensures GrpcOk(lib, n, route)
  {
    NoBinary(f, n);
    assert RouteOf(f, route) == RouteOf(n, route);
  }

  lemma NormalIsStorable(lib: Library, f: Fields, route: Option<string>)
    requires Sane(lib) && Acceptable(lib, f, route)
    ensures Storable(Obj(Normal(lib, f, route)))
  {
    var n := Normal(lib, f, route);
    forall k <- n ensures Storable(n[k]) {
      if k == "headers" {
        if "headers" in f { assert Storable(f["headers"]); }
        LoweredIsStorable(HeadersOf(f).fields);
      } else if k == "assertions" {
        assert Storable(f["assertions"]);
        AssertionsAgain(lib, IsHttp(f), ExpectedKey(f), f["assertions"].fields);
      } else if k in f {
        assert Storable(f[k]);
      }
    }
  }

  lemma TargetAgain(lib: Library, f: Fields, n: Fields, route: Option<string>)
    requires ProtocolOk(f) && RouteOk(lib, f, route) && TargetOk(f)
    requires n.Keys == f.Keys + {"protocol", "headers"} && n["protocol"] == ProtocolOf(f)
    requires SameAt(f, n, "path") && SameAt(f, n, "service_name") && SameAt(f, n, "target_port")
    ensures IsHttp(n) == IsHttp(f) && ProtocolOk(n) && RouteOk(lib, n, route) && TargetOk(n)
  {
  }

  /** The fields normalising leaves alone, one by one. */
  lemma NormalSameAt(lib: Library, f: Fields, route: Option<string>, k: string)
    requires Acceptable(lib, f, route)
    requires k != "protocol" && k != "headers" && k != "assertions" && (k == "method" ==> !IsHttp(f))
    ensures SameAt(f, Normal(lib, f, route), k)
  {
  }

  lemma NormalTarget(lib: Library, f: Fields, route: Option<string>)
    requires Acceptable(lib, f, route)
    ensures var n := Normal(lib, f, route);
            IsHttp(n) == IsHttp(f) && ProtocolOk(n) && RouteOk(lib, n, route) && TargetOk(n)
  {
    NormalKeeps(lib, f, route);
    NormalSameAt(lib, f, route, "path");
    NormalSameAt(lib, f, route, "service_name");
    NormalSameAt(lib, f, route, "target_port");
    TargetAgain(lib, f, Normal(lib, f, route), route);
  }

  lemma NormalContent(lib: Library, f: Fields, route: Option<string>)
    requires Sane(lib) && Acceptable(lib, f, route)
    ensures var n := Normal(lib, f, route);
            if IsHttp(f) then HttpOk(lib, n) else GrpcOk(lib, n, route)
  {
    var n := Normal(lib, f, route);
    NormalKeeps(lib, f, route);
    if IsHttp(f) {
      HttpAgain(lib, f, n);
    } else {
      NormalSameAt(lib, f, route, "path");
      NormalSameAt(lib, f, route, "method");
      NormalSameAt(lib, f, route, "query_params");
      NormalSameAt(lib, f, route, "reflection");
      NormalSameAt(lib, f, route, "descriptor_set_base64");
      NormalSameAt(lib, f, route, "body_base64");
      NormalSameAt(lib, f, route, "body");
      GrpcAgain(lib, f, n, route);
    }
  }

  lemma NormalTests(lib: Library, f: Fields, route: Option<string>)
    requires Sane(lib) && Acceptable(lib, f, route)
    ensures var n := Normal(lib, f, route);
            && HeadersOk(HeadersOf(n), true)
            && "assertions" in n && n["assertions"].Obj?
            && AssertionsOk(lib, IsHttp(f), ExpectedKey(f), n["assertions"].fields)
  {
    NormalKeeps(lib, f, route);
    LoweredAgain(HeadersOf(f), true);
    AssertionsAgain(lib, IsHttp(f), ExpectedKey(f), f["assertions"].fields);
  }

  lemma NormalIsAcceptable(lib: Library, f: Fields, route: Option<string>)
    requires Sane(lib) && Acceptable(lib, f, route)
    ensures Acceptable(lib, Normal(lib, f, route), route) <==> lib.bounded(Normal(lib, f, route))
  {
    NormalIsStorable(lib, f, route);
    NormalTarget(lib, f, route);
    NormalContent(lib, f, route);
    NormalTests(lib, f, route);
  }

  lemma NormalTwice(lib: Library, f: Fields, route: Option<string>)
    requires Sane(lib) && Acceptable(lib, f, route) && Acceptable(lib, Normal(lib, f, route), route)
    ensures Normal(lib, Normal(lib, f, route), route) == Normal(lib, f, route)
  {
    var n := Normal(lib, f, route);
    var m := Normal(lib, n, route);
    NormalTarget(lib, f, route);
    NormalFixed(lib, f, route);
    NormalKeeps(lib, n, route);
    SameFields(n, m);
  }

  lemma SameFields(n: Fields, m: Fields)
    requires {"protocol", "headers", "assertions"} <= n.Keys && m.Keys == n.Keys + {"protocol", "headers"}
    requires m["protocol"] == n["protocol"] && m["headers"] == n["headers"] && m["assertions"] == n["assertions"]
    requires "method" in n ==> m["method"] == n["method"]
    requires forall k <- n :: k != "protocol" && k != "headers" && k != "assertions" && k != "method" ==> m[k] == n[k]
    ensures m == n
  {
    assert m.Keys == n.Keys;
  }

  /** The four fields normalising rewrites are left as they are the second time. */
  lemma NormalFixed(lib: Library, f: Fields, route: Option<string>)
    requires Sane(lib) && Acceptable(lib, f, route)
    ensures var n := Normal(lib, f, route);
            && {"protocol", "headers", "assertions"} <= n.Keys && ProtocolOf(n) == n["protocol"]
            && HeadersOk(HeadersOf(n), true) && LoweredJson(HeadersOf(n)) == n["headers"]
            && n["assertions"].Obj? && AssertionsOk(lib, IsHttp(f), ExpectedKey(f), n["assertions"].fields)
            && Obj(NormalAssertions(lib, IsHttp(f), ExpectedKey(f), n["assertions"].fields)) == n["assertions"]
            && (IsHttp(f) ==> "method" in n && n["method"].Str? && Str(lib.upper(n["method"].text)) == n["method"])
  {
    NormalKeeps(lib, f, route);
    LoweredAgain(HeadersOf(f), true);
    AssertionsAgain(lib, IsHttp(f), ExpectedKey(f), f["assertions"].fields);
    if IsHttp(f) { HttpAgain(lib, f, Normal(lib, f, route)); }
  }

  /** Validation is idempotent exactly when its own output still fits the size limit. */
  lemma ValidateTwice(lib: Library, f: Fields, route: Option<string>)
    requires Sane(lib) && Validated(lib, f, route).Some?
    ensures var n := Validated(lib, f, route).value;
            Validated(lib, n, route) == if lib.bounded(n) then Some(n) else None
  {
    NormalIsAcceptable(lib, f, route);
    if Acceptable(lib, Normal(lib, f, route), route) { NormalTwice(lib, f, route); }
  }

  /** A minimal request: one status, nothing else. */
  const PLAIN_ASSERTIONS: Fields := map["expected_status_list" := Arr([Int(200)])]
  const PLAIN: Fields :=
    map["method" := Str("GET"), "query_params" := Obj(map[]), "body" := Null, "assertions" := Obj(PLAIN_ASSERTIONS)]

  lemma PlainIsStorable()
    ensures Storable(Obj(PLAIN))
  {
    forall k <- PLAIN_ASSERTIONS ensures Storable(PLAIN_ASSERTIONS[k]) {}
    assert Storable(Obj(PLAIN_ASSERTIONS));
    forall k <- PLAIN ensures Storable(PLAIN[k]) {}
  }

  lemma PlainAssertionsAreOk(lib: Library)
    ensures AssertionsOk(lib, true, "expected_status_list", PLAIN_ASSERTIONS)
  {
    assert "expected_headers" !in PLAIN_ASSERTIONS && "json_path_equals" !in PLAIN_ASSERTIONS;
  }

  lemma PlainContentIsOk(lib: Library)
    requires Sane(lib)
    ensures IsHttp(PLAIN) && ProtocolOk(PLAIN) && TargetOk(PLAIN) && RouteOk(lib, PLAIN, None) && HttpOk(lib, PLAIN)
  {
    assert "GET" in HTTP_METHODS;
    assert lib.upper("GET") == "GET";
  }

  lemma PlainHeadersAreOk()
    ensures HeadersOk(HeadersOf(PLAIN), true)
    ensures "assertions" in PLAIN && PLAIN["assertions"] == Obj(PLAIN_ASSERTIONS) && ExpectedKey(PLAIN) == "expected_status_list"
  {
    assert "headers" !in PLAIN;
    assert HeadersOf(PLAIN) == Obj(map[]);
  }

  lemma AcceptableBy(lib: Library, f: Fields, route: Option<string>)
    requires Storable(Obj(f)) && lib.bounded(f) && IsHttp(f)
    requires ProtocolOk(f) && RouteOk(lib, f, route) && TargetOk(f) && HeadersOk(HeadersOf(f), true)
    requires "assertions" in f && f["assertions"].Obj? && HttpOk(lib, f)
    requires AssertionsOk(lib, true, ExpectedKey(f), f["assertions"].fields)
    ensures Acceptable(lib, f, route)
  {
  }

  /** The rule accepts requests at all: a minimal one passes. */
  lemma PlainRequestIsAccepted(lib: Library)
    requires Sane(lib) && lib.bounded(PLAIN)
    ensures Acceptable(lib, PLAIN, None)
  {
    PlainIsStorable();
    PlainAssertionsAreOk(lib);
    PlainContentIsOk(lib);
    PlainHeadersAreOk();
    AcceptableBy(lib, PLAIN, None);
  }

  /** Normalising writes out what the request left to defaults. */
  lemma NormalGrows(lib: Library, f: Fields, route: Option<string>)
    requires Acceptable(lib, f, route) && ("protocol" !in f || "headers" !in f)
    ensures f.Keys < Normal(lib, f, route).Keys
  {
    NormalKeeps(lib, f, route);
  }

  /** A limit that the minimal request meets and no larger one does. */
  ghost predicate FitsOnlyPlain(lib: Library) {
    lib.bounded(PLAIN) && forall f: Fields :: PLAIN.Keys < f.Keys ==> !lib.bounded(f)
  }

  /** Under such a limit the request is accepted, and its own normal form is not. */
  lemma PlainValidatesOnlyOnce(lib: Library)
    requires Sane(lib) && FitsOnlyPlain(lib)
    ensures Validated(lib, PLAIN, None).Some?
    ensures Validated(lib, Validated(lib, PLAIN, None).value, None).None?
  {
    PlainRequestIsAccepted(lib);
    PlainLacksHeaders();
    NormalGrows(lib, PLAIN, None);
    ValidateTwice(lib, PLAIN, None);
  }

  lemma PlainLacksHeaders()
    ensures "headers" !in PLAIN
  {
  }

  /** There is such a limit. */
  lemma ValidationIsNotAlwaysIdempotent()
    ensures exists lib: Library :: Sane(lib) && FitsOnlyPlain(lib)
  {
    var lib := Library((f: Fields) => f.Keys <= PLAIN.Keys, (r, grpc) => true, s => true, (s, route) => true, s => s);
    assert Sane(lib) && FitsOnlyPlain(lib);
  }

  // ------------------------------------------------------------ repair

  datatype RepairError = NotAnObject | InvalidProbe | ChangesTheTest

  /** What a repair may not change. */
  const PINNED: set<string> :=
    {"protocol", "path", "service_name", "target_port", "assertions", "descriptor_set_base64", "reflection"}

  function Get(f: Fields, k: string): Json {
    if k in f then f[k] else Null
  }

  predicate KeepsTheTest(original: Fields, candidate: Fields) {
    forall k <- PINNED :: Get(candidate, k) == Get(original, k)
  }

  /** What becomes of a repaired request once validated. */
  function Judged(original: Fields, candidate: Option<Fields>): Result<Fields, RepairError> {
    if candidate.None? then Err(InvalidProbe)
    else if KeepsTheTest(original, candidate.value) then Ok(candidate.value) else Err(ChangesTheTest)
  }

  function Repair(lib: Library, original: Fields, repair: Json, route: string): Result<Fields, RepairError> {
    if !repair.Obj? then Err(NotAnObject)
    else Judged(original, Validated(lib, original + repair.fields, Some(route)))
  }

  method CheckRepair(lib: Library, original: Fields, repair: Json, route: string)
    returns (r: Result<Fields, RepairError>)
    ensures r == Repair(lib, original, repair, route)
  {
    if !repair.Obj? {
      return Err(NotAnObject);
    }
    var candidate := Validated(lib, original + repair.fields, Some(route));
    if candidate.None? {
      return Err(InvalidProbe);
    }
    var left := PINNED;
    while left != {}
      invariant left <= PINNED
      invariant forall k <- PINNED - left :: Get(candidate.value, k) == Get(original, k)
      decreases |left|
    {
      var key :| key in left;
      if Get(candidate.value, key) != Get(original, key) {
        return Err(ChangesTheTest);
      }
      left := left - {key};
    }
    return Ok(candidate.value);
  }

  /** A request the delivery starts from: the output of validation. */
  ghost predicate Normalised(lib: Library, original: Fields, route: string) {
    exists f :: Validated(lib, f, Some(route)) == Some(original)
  }

  lemma OriginalIsStable(lib: Library, original: Fields, route: string)
    requires Sane(lib) && Normalised(lib, original, route)
    ensures Validated(lib, original, Some(route)) == if lib.bounded(original) then Some(original) else None
  {
    var f :| Validated(lib, f, Some(route)) == Some(original);
    ValidateTwice(lib, f, Some(route));
  }

  lemma UnchangedIsJudgedOk(original: Fields)
    ensures Judged(original, Some(original)) == Ok(original)
  {
  }

  /** An empty repair is accepted, and changes nothing, exactly when the original
      request fits the size limit. */
  lemma EmptyRepair(lib: Library, original: Fields, route: string)
    requires Sane(lib) && Normalised(lib, original, route)
    ensures Repair(lib, original, Obj(map[]), route) == if lib.bounded(original) then Ok(original) else Err(InvalidProbe)
  {
    OriginalIsStable(lib, original, route);
    UnchangedIsJudgedOk(original);
    assert original + map[] == original;
  }

  lemma RepairIsJudged(lib: Library, original: Fields, repair: Json, route: string)
    requires Repair(lib, original, repair, route).Ok?
    ensures var candidate := Repair(lib, original, repair, route).value;
            && repair.Obj? && Validated(lib, original + repair.fields, Some(route)) == Some(candidate)
            && KeepsTheTest(original, candidate)
  {
  }

  lemma ValidatedKeys(lib: Library, f: Fields, route: Option<string>)
    requires Validated(lib, f, route).Some?
    ensures f.Keys <= Validated(lib, f, route).value.Keys
    ensures {"protocol", "assertions"} <= Validated(lib, f, route).value.Keys
  {
    NormalKeeps(lib, f, route);
  }

  /** An accepted repair is sent as accepted, now and after a restart: repairing with
      it again, and validating it again before sending, both give it back. */
  lemma AcceptedRepairIsStable(lib: Library, original: Fields, repair: Json, route: string)
    requires Sane(lib) && Repair(lib, original, repair, route).Ok?
    requires lib.bounded(Repair(lib, original, repair, route).value)
    ensures var candidate := Repair(lib, original, repair, route).value;
            && Validated(lib, candidate, Some(route)) == Some(candidate)
            && Repair(lib, original, Obj(candidate), route) == Ok(candidate)
  {
    var candidate := Repair(lib, original, repair, route).value;
    RepairIsJudged(lib, original, repair, route);
    ValidateTwice(lib, original + repair.fields, Some(route));
    ValidatedKeys(lib, original + repair.fields, Some(route));
    MergedKeys(original, repair.fields);
    MergeInto(original, candidate);
    KeptIsJudgedOk(original, candidate);
  }

  lemma MergedKeys(a: Fields, b: Fields)
    ensures a.Keys <= (a + b).Keys
  {
  }

  lemma MergeInto(a: Fields, b: Fields)
    requires a.Keys <= b.Keys
    ensures a + b == b
  {
  }

  lemma KeptIsJudgedOk(original: Fields, candidate: Fields)
    requires KeepsTheTest(original, candidate)
    ensures Judged(original, Some(candidate)) == Ok(candidate)
  {
  }

  /** Whatever the agent proposes, an accepted repair talks the same protocol to the
      same path, service and port, and is judged by the same assertions. */
  lemma RepairKeepsTheTest(lib: Library, original: Fields, repair: Json, route: string, k: string)
    requires Repair(lib, original, repair, route).Ok? && Normalised(lib, original, route)
    requires k in {"protocol", "path", "service_name", "target_port", "assertions", "descriptor_set_base64", "reflection"}
    ensures SameAt(Repair(lib, original, repair, route).value, original, k)
  {
    RepairIsJudged(lib, original, repair, route);
    PinnedIsNotNull(lib, original + repair.fields, Some(route), k);
    var f :| Validated(lib, f, Some(route)) == Some(original);
    PinnedIsNotNull(lib, f, Some(route), k);
    SameUnlessNull(original, Repair(lib, original, repair, route).value, k);
  }

  lemma SameUnlessNull(a: Fields, b: Fields, k: string)
    requires KeepsTheTest(a, b) && k in PINNED
    requires (k in a ==> a[k] != Null) && (k in b ==> b[k] != Null)
    ensures SameAt(b, a, k)
  {
    assert Get(b, k) == Get(a, k);
  }

  lemma TargetNotNull(lib: Library, f: Fields, route: Option<string>, k: string)
    requires RouteOk(lib, f, route) && TargetOk(f)
    requires k in f && (k == "path" || k == "service_name" || k == "target_port")
    ensures f[k] != Null
  {
  }

  lemma OnlyGrpc(f: Fields, k: string)
    requires ProtocolOk(f) && k in f && (k == "descriptor_set_base64" || k == "reflection")
    ensures !IsHttp(f)
  {
  }

  lemma GrpcNotNull(lib: Library, f: Fields, route: Option<string>, k: string)
    requires GrpcOk(lib, f, route) && k in f && (k == "descriptor_set_base64" || k == "reflection")
    ensures f[k] != Null
  {
  }

  lemma PinnedCases(k: string)
    requires k in PINNED
    ensures k == "protocol" || k == "assertions" || k == "path" || k == "service_name" || k == "target_port"
            || k == "descriptor_set_base64" || k == "reflection"
  {
  }

  /** No accepted request has a pinned field that is null, so absence is told apart. */
  lemma PinnedIsNotNull(lib: Library, f: Fields, route: Option<string>, k: string)
    requires Validated(lib, f, route).Some? && k in PINNED
    ensures var n := Validated(lib, f, route).value;
            k in n ==> n[k] != Null
  {
    PinnedCases(k);
    if k == "protocol" || k == "assertions" {
      ValidatedProtocol(lib, f, route);
    } else {
      NormalSameAt(lib, f, route, k);
      if k in f { RestIsNotNull(lib, f, route, k); }
    }
  }

  lemma ValidatedProtocol(lib: Library, f: Fields, route: Option<string>)
    requires Validated(lib, f, route).Some?
    ensures var n := Validated(lib, f, route).value;
            {"protocol", "assertions"} <= n.Keys && n["protocol"].Str? && n["assertions"].Obj?
  {
    NormalKeeps(lib, f, route);
  }

  lemma RestIsNotNull(lib: Library, f: Fields, route: Option<string>, k: string)
    requires Acceptable(lib, f, route) && k in f
    requires k == "path" || k == "service_name" || k == "target_port" || k == "descriptor_set_base64" || k == "reflection"
    ensures f[k] != Null
  {
    if k == "path" || k == "service_name" || k == "target_port" {
      TargetNotNull(lib, f, route, k);
    } else {
      OnlyGrpc(f, k);
      GrpcNotNull(lib, f, route, k);
    }
  }
}
