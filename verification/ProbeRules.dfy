/** What the request checks let through and what normalising and repairing leave, told with
    the limits and names of the source. */
module ProbeRules {
  import opened Options
  import opened Json
  import JsonPath
  import opened ProbePayload

  // ------------------------------------------------------------------ headers

  predicate IsCapital(c: char) { 65 <= c as int <= 90 }

  /** The same name with capitals written small. */
  predicate IsSmallOf(small: string, name: string) {
    && |small| == |name|
    && forall i :: 0 <= i < |name| ==> small[i] as int == if IsCapital(name[i]) then name[i] as int + 32 else name[i] as int
  }

  lemma LowerIsSmall(name: string, small: string)
    ensures IsSmallOf(small, name) <==> small == Lower(name)
    ensures forall i :: 0 <= i < |name| ==> !IsCapital(Lower(name)[i])
  {
    forall i | 0 <= i < |name| ensures Lower(name)[i] as int == if IsCapital(name[i]) then name[i] as int + 32 else name[i] as int {}
    if IsSmallOf(small, name) {
      forall i | 0 <= i < |name| ensures small[i] == Lower(name)[i] {}
    }
  }

  /** Transport authority and framing cannot be overridden, in whatever case the name is. */
  lemma TransportHeadersRefused(fields: Fields, name: string, small: string)
    requires name in fields && IsSmallOf(small, name)
    requires small in {"host", "connection", "content-length", "transfer-encoding", "upgrade",
                       "proxy-authorization", "proxy-connection", "te", "trailer"}
             || (|small| >= 5 && small[..5] == "grpc-") || (small != "" && small[0] == ':')
    ensures !HeadersOk(Obj(fields), true)
  {
    LowerIsSmall(name, small);
    PrefixIs(small);
    assert HeadersOk(Obj(fields), true) ==> HeaderOk(name, fields[name], true);
  }

  lemma PrefixIs(s: string)
    ensures StartsWith(s, "grpc-") <==> |s| >= 5 && s[..5] == "grpc-"
    ensures StartsWith(s, ":") <==> s != "" && s[0] == ':'
  {
    if s != "" { assert s[..1] == [s[0]]; }
  }

  /** Accepted headers come out under their small names with their contents, none lost. */
  lemma HeadersComeOutSmall(j: Json, request: bool, name: string)
    requires HeadersOk(j, request) && name in j.fields
    ensures var out := LoweredJson(j).fields;
            && Lower(name) in out && out[Lower(name)] == j.fields[name] && |out| <= |j.fields|
            && forall m <- out :: exists n :: n in j.fields && IsSmallOf(m, n) && out[m] == j.fields[n]
  {
    var out := Lowered(j.fields);
    assert out.Keys == set n <- j.fields.Keys :: Lower(n);
    ImageSize(j.fields.Keys);
    assert |out| == |out.Keys|;
    forall m <- out ensures exists n :: n in j.fields && IsSmallOf(m, n) && out[m] == j.fields[n] {
      LoweredEntry(j.fields, m);
      var n :| n in j.fields && Lower(n) == m && out[m] == j.fields[n];
      LowerIsSmall(n, m);
    }
  }

  /** A header is accepted on its name's characters and its content's length and range. */
  lemma HeaderRule(name: string, content: Json)
    ensures HeaderOk(name, content, false) <==>
      && name != "" && (forall i :: 0 <= i < |name| ==> HeaderChar(name[i]))
      && content.Str? && |content.text| < 8193
      && forall i :: 0 <= i < |content.text| ==> 31 < content.text[i] as int <= 126
  {
  }

  // ------------------------------------------------------------- single checks

  lemma TargetRule(f: Fields)
    ensures TargetOk(f) <==>
      && ("service_name" in f ==> f["service_name"].Str? && 0 < |f["service_name"].text| < 257)
      && ("target_port" in f ==> f["target_port"].Int? && 0 < f["target_port"].number < 65536)
  {
  }

  /** HTTP statuses from 100 to 599; gRPC codes by number from 0 to 16 or by name. */
  lemma StatusRule(lib: Library, n: int)
    ensures HttpCodeOk(Int(n)) <==> 99 < n < 600
    ensures GrpcCodeOk(lib, Int(n)) <==> -1 < n < 17
    ensures GrpcCodeOk(lib, Int(0)) && GrpcCode(lib, Int(0)) == Str("OK")
    ensures GrpcCodeOk(lib, Int(5)) && GrpcCode(lib, Int(5)) == Str("NOT_FOUND")
    ensures GrpcCodeOk(lib, Int(14)) && GrpcCode(lib, Int(14)) == Str("UNAVAILABLE")
    ensures GrpcCodeOk(lib, Int(16)) && GrpcCode(lib, Int(16)) == Str("UNAUTHENTICATED")
  {
  }

  /** A truth value, a float or a number in quotes is no HTTP status. */
  lemma OnlyIntegersAreStatuses(j: Json)
    requires !j.Int?
    ensures !HttpCodeOk(j)
  {
  }

  lemma ExpectedRule(lib: Library, j: Json)
    ensures ExpectedOk(lib, true, j) <==>
      && j.Arr? && 0 < |j.items| < 501
      && forall i :: 0 <= i < |j.items| ==> j.items[i].Int? && 99 < j.items[i].number < 600
  {
  }

  /** Query parameters are scalars or lists of scalars. */
  lemma ParameterRule(j: Json)
    ensures ParameterOk(j) <==>
      IsScalar(j) || (j.Arr? && forall i :: 0 <= i < |j.items| ==> IsScalar(j.items[i]))
  {
  }

  /** A text to be contained stands for the list of it. */
  lemma ContainsRule(text: string, items: seq<Json>)
    ensures ContainsOk(Str(text)) && ContainsList(Str(text)) == Arr([Str(text)])
    ensures ContainsOk(Arr(items)) <==> forall i :: 0 <= i < |items| ==> items[i].Str?
    ensures ContainsList(Arr(items)) == Arr(items)
  {
  }

  // ------------------------------------------------------------- whole requests

  /** What an accepted HTTP request is. */
  predicate HttpRequest(lib: Library, f: Fields, route: Option<string>) {
    && f.Keys <= {"protocol", "path", "service_name", "target_port", "headers", "body", "assertions", "method", "query_params"}
    && {"body", "assertions", "method", "query_params"} <= f.Keys
    && f["method"].Str?
    && lib.upper(f["method"].text) in {"GET", "POST", "PUT", "PATCH", "DELETE", "HEAD", "OPTIONS"}
    && f["query_params"].Obj? && |f["query_params"].fields| < 201
    && ("path" in f && route.Some? ==> f["path"] == Str(route.value))
    && ("target_port" in f ==> f["target_port"].Int? && 0 < f["target_port"].number < 65536)
    && f["assertions"].Obj? && "expected_status_list" in f["assertions"].fields
  }

  lemma AcceptedHttpFields(f: Fields)
    requires IsHttp(f) && ProtocolOk(f)
    ensures f.Keys <= {"protocol", "path", "service_name", "target_port", "headers", "body", "assertions", "method", "query_params"}
  {
  }

  lemma AcceptedHttpContent(lib: Library, f: Fields)
    requires HttpOk(lib, f)
    ensures {"body", "method", "query_params"} <= f.Keys && f["method"].Str?
    ensures lib.upper(f["method"].text) in {"GET", "POST", "PUT", "PATCH", "DELETE", "HEAD", "OPTIONS"}
    ensures f["query_params"].Obj? && |f["query_params"].fields| < 201
  {
  }

  lemma AcceptedIsHttpRequest(lib: Library, f: Fields, route: Option<string>)
    requires Acceptable(lib, f, route) && IsHttp(f)
    ensures HttpRequest(lib, f, route)
  {
    AcceptedHttpFields(f);
    AcceptedHttpContent(lib, f);
    AcceptedAssertions(lib, f, route);
  }

  lemma AcceptedAssertions(lib: Library, f: Fields, route: Option<string>)
    requires Acceptable(lib, f, route) && IsHttp(f)
    ensures "assertions" in f && f["assertions"].Obj? && "expected_status_list" in f["assertions"].fields
    ensures "path" in f && route.Some? ==> f["path"] == Str(route.value)
    ensures "target_port" in f ==> f["target_port"].Int? && 0 < f["target_port"].number < 65536
  {
  }

  /** A gRPC request carries encoded bytes and no body, or a body that descriptors or
      reflection can encode. */
  lemma GrpcBodyRule(lib: Library, f: Fields)
    ensures GrpcBodyOk(lib, f) <==>
      || ("body_base64" in f && f["body_base64"].Str? && lib.base64Ok(f["body_base64"].text)
          && ("body" !in f || f["body"] == Null))
      || ("body_base64" !in f && "body" in f
          && ("descriptor_set_base64" in f || "reflection" !in f || f["reflection"] != Bool(false)))
  {
  }

  /** Method overrides, query parameters, binary metadata, broken descriptors and a
      reflection flag that is no truth value are refused. */
  lemma GrpcRefusals(lib: Library, f: Fields, route: Option<string>, name: string, small: string)
    ensures "method" in f && f["method"] != Str("POST") ==> !GrpcOk(lib, f, route)
    ensures "query_params" in f && f["query_params"] != Obj(map[]) ==> !GrpcOk(lib, f, route)
    ensures "reflection" in f && !f["reflection"].Bool? ==> !GrpcOk(lib, f, route)
    ensures "descriptor_set_base64" in f && !f["descriptor_set_base64"].Str? ==> !GrpcOk(lib, f, route)
    ensures ("descriptor_set_base64" in f && f["descriptor_set_base64"].Str? && route.Some?
             && !lib.descriptorsOk(f["descriptor_set_base64"].text, route)) ==> !GrpcOk(lib, f, route)
    ensures (HeadersOf(f).Obj? && name in HeadersOf(f).fields && IsSmallOf(small, name)
             && |small| >= 4 && small[|small| - 4..] == "-bin") ==> !GrpcOk(lib, f, route)
    ensures !GrpcBodyOk(lib, f) ==> !GrpcOk(lib, f, route)
  {
    LowerIsSmall(name, small);
  }

  /** With none of these a gRPC request's content is accepted. */
  lemma GrpcAccepted(lib: Library, f: Fields, route: Option<string>)
    requires HeadersOf(f).Obj? && forall n <- HeadersOf(f).fields :: |n| < 4 || n[|n| - 1] !in {'n', 'N'}
    requires "method" in f ==> f["method"] == Str("POST")
    requires "query_params" in f ==> f["query_params"] == Obj(map[])
    requires "reflection" in f ==> f["reflection"].Bool?
    requires "descriptor_set_base64" in f ==>
      f["descriptor_set_base64"].Str? && lib.descriptorsOk(f["descriptor_set_base64"].text, RouteOf(f, route))
    requires GrpcBodyOk(lib, f)
    ensures GrpcOk(lib, f, route)
  {
    forall n <- HeadersOf(f).fields ensures !EndsWith(Lower(n), "-bin") {
      NoBinaryEnding(n);
    }
  }

  lemma NoBinaryEnding(n: string)
    requires |n| < 4 || n[|n| - 1] !in {'n', 'N'}
    ensures !EndsWith(Lower(n), "-bin")
  {
    if |n| >= 4 {
      assert Lower(n)[|n| - 1] == Lower(n)[|n| - 4..][3] && "-bin"[3] == 'n';
    }
  }

  // ------------------------------------------------------------------ repair

  /** The fields that normalising may rewrite. */
  predicate Rewritten(k: string) {
    k == "protocol" || k == "headers" || k == "assertions" || k == "method"
  }

  /** An accepted repair takes every other field from the agent where it gives one and from
      the original where it does not. */
  lemma RepairTakesTheRest(lib: Library, original: Fields, repair: Json, route: string, k: string)
    requires Repair(lib, original, repair, route).Ok? && !Rewritten(k)
    ensures var candidate := Repair(lib, original, repair, route).value;
            && repair.Obj?
            && (k in candidate <==> k in repair.fields || k in original)
            && (k in repair.fields ==> candidate[k] == repair.fields[k])
            && (k !in repair.fields && k in original ==> candidate[k] == original[k])
  {
    RepairIsJudged(lib, original, repair, route);
    NormalSameAt(lib, original + repair.fields, Some(route), k);
  }

  /** Its headers are the agent's, small, where it gives any, and the original's otherwise. */
  lemma RepairTakesHeaders(lib: Library, original: Fields, repair: Json, route: string)
    requires Repair(lib, original, repair, route).Ok?
    ensures var candidate := Repair(lib, original, repair, route).value;
            && repair.Obj? && "headers" in candidate && candidate["headers"].Obj?
            && ("headers" in repair.fields ==>
                  repair.fields["headers"].Obj? && DistinctWhenLowered(repair.fields["headers"].fields.Keys)
                  && candidate["headers"].fields == Lowered(repair.fields["headers"].fields))
            && ("headers" !in repair.fields && "headers" in original ==>
                  original["headers"].Obj? && DistinctWhenLowered(original["headers"].fields.Keys)
                  && candidate["headers"].fields == Lowered(original["headers"].fields))
  {
    RepairIsJudged(lib, original, repair, route);
    var merged := original + repair.fields;
    MergedHeaders(original, repair.fields);
    NormalHeaders(lib, merged, Some(route));
  }

  lemma MergedHeaders(a: Fields, b: Fields)
    ensures HeadersOf(a + b) == if "headers" in b then b["headers"] else HeadersOf(a)
  {
  }

  lemma NormalHeaders(lib: Library, f: Fields, route: Option<string>)
    requires Validated(lib, f, route).Some?
    ensures var n := Validated(lib, f, route).value;
            && "headers" in n && HeadersOf(f).Obj? && DistinctWhenLowered(HeadersOf(f).fields.Keys)
            && n["headers"] == Obj(Lowered(HeadersOf(f).fields))
  {
    NormalKeeps(lib, f, route);
  }
}
