/** `${VAR}` placeholders in service environments, replaced in one pass from left
    to right; `$$` stands for a dollar sign. */
module Interpolation {
  import opened Options

  datatype Operator = ColonDash | ColonQuestion | Dash | Question

  /** A piece of text: a plain character, or one match of the placeholder pattern. */
  datatype Segment =
    | Plain(c: char)
    | Escaped
    | Bare(name: string)
    | Braced(name: string, op: Option<Operator>, default: string)

  /** The exceptions name the variable only; the hint of `?` and `:?` is not kept. */
  datatype InputError = MissingVariable(name: string) | EmptyVariable(name: string)

  type Environment = map<string, string>

  predicate IsNameStart(c: char) {
    'A' <= c <= 'Z' || 'a' <= c <= 'z' || c == '_'
  }

  predicate IsNameChar(c: char) {
    IsNameStart(c) || '0' <= c <= '9'
  }

  predicate IsName(s: string) {
    s != "" && IsNameStart(s[0]) && forall i :: 0 <= i < |s| ==> IsNameChar(s[i])
  }

  predicate NoBrace(s: string) {
    forall i :: 0 <= i < |s| ==> s[i] != '}'
  }

  function Sign(op: Operator): string {
    match op
    case ColonDash => ":-"
    case ColonQuestion => ":?"
    case Dash => "-"
    case Question => "?"
  }

  // ------------------------------------------------------------ the pattern

  /** What the pattern can match, as text. */
  function Written(g: Segment): string {
    match g
    case Plain(c) => [c]
    case Escaped => "$$"
    case Bare(name) => "$" + name
    case Braced(name, op, default) =>
      "${" + (name + Closing(op, default))
  }

  predicate Legal(g: Segment) {
    match g
    case Plain(_) => false
    case Escaped => true
    case Bare(name) => IsName(name)
    case Braced(name, op, default) => IsName(name) && NoBrace(default) && (op.None? ==> default == "")
  }

  /** A bare name is matched as far as it goes. */
  predicate Ends(g: Segment, more: string) {
    g.Bare? && more != "" ==> !IsNameChar(more[0])
  }

  function NameCharsLength(s: string): (n: nat)
    ensures n <= |s| && (forall i :: 0 <= i < n ==> IsNameChar(s[i])) && (n < |s| ==> !IsNameChar(s[n]))
  {
    if s == "" || !IsNameChar(s[0]) then 0 else 1 + NameCharsLength(s[1..])
  }

  function NameLength(s: string): (n: nat)
    ensures n <= |s| && (n > 0 ==> IsName(s[..n])) && (n > 0 && n < |s| ==> !IsNameChar(s[n]))
    ensures n == 0 && s != "" ==> !IsNameStart(s[0])
  {
    if s == "" || !IsNameStart(s[0]) then 0 else NameCharsLength(s)
  }

  /** The characters before the first closing brace, or all of them. */
  function DefaultLength(s: string): (n: nat)
    ensures n <= |s| && NoBrace(s[..n]) && (n < |s| ==> s[n] == '}')
  {
    if s == "" || s[0] == '}' then 0
    else
      var n := 1 + DefaultLength(s[1..]);
      assert forall i :: 1 <= i < n ==> s[i] == s[1..][..n - 1][i - 1];
      n
  }

  function OperatorAt(s: string): Option<Operator> {
    if s == "" then None
    else if s[0] == '-' then Some(Dash)
    else if s[0] == '?' then Some(Question)
    else if s[0] == ':' && |s| > 1 && s[1] == '-' then Some(ColonDash)
    else if s[0] == ':' && |s| > 1 && s[1] == '?' then Some(ColonQuestion)
    else None
  }

  /** What follows the name inside braces: an operator with its default, and the brace. */
  function ClosingAt(s: string): Option<(Option<Operator>, string)> {
    if s != "" && s[0] == '}' then Some((None, ""))
    else
      var op := OperatorAt(s);
      if op.None? then None
      else
        var tail := s[|Sign(op.value)|..];
        var n := DefaultLength(tail);
        if n < |tail| then Some((op, tail[..n])) else None
  }

  function BracedAt(s: string): Option<Segment> {
    var n := NameLength(s);
    if n == 0 then None
    else
      match ClosingAt(s[n..])
      case None => None
      case Some((op, default)) => Some(Braced(s[..n], op, default))
  }

  /** The match that starts at this dollar sign. */
  function MatchAt(s: string): Option<Segment>
    requires s != "" && s[0] == '$'
  {
    if |s| == 1 then None
    else if s[1] == '$' then Some(Escaped)
    else if s[1] == '{' then BracedAt(s[2..])
    else
      var n := NameLength(s[1..]);
      if n == 0 then None else Some(Bare(s[1..][..n]))
  }

  lemma ClosingIsWritten(s: string)
    requires ClosingAt(s).Some?
    ensures var (op, default) := ClosingAt(s).value;
            NoBrace(default) && (op.None? ==> default == "") && Closing(op, default) <= s
  {
    if s[0] != '}' {
      var op := OperatorAt(s).value;
      var tail := s[|Sign(op)|..];
      var n := DefaultLength(tail);
      assert s == Sign(op) + tail;
      assert tail[..n + 1] == tail[..n] + "}";
    }
  }

  lemma BracedIsWritten(s: string)
    requires BracedAt(s).Some?
    ensures var g := BracedAt(s).value;
            g.Braced? && Legal(g) && g.name + Closing(g.op, g.default) <= s
  {
    var n := NameLength(s);
    ClosingIsWritten(s[n..]);
    assert s == s[..n] + s[n..];
  }

  lemma MatchIsLegal(s: string)
    requires s != "" && s[0] == '$' && MatchAt(s).Some?
    ensures Legal(MatchAt(s).value) && Written(MatchAt(s).value) <= s
    ensures Ends(MatchAt(s).value, s[|Written(MatchAt(s).value)|..])
  {
    if s[1] == '{' {
      BracedStarts(s);
    } else if s[1] != '$' {
      BareIsWritten(s);
    }
  }

  lemma BracedStarts(s: string)
    requires |s| > 1 && s[..2] == "${" && BracedAt(s[2..]).Some?
    ensures var g := BracedAt(s[2..]).value;
            g.Braced? && Legal(g) && Written(g) <= s
  {
    BracedIsWritten(s[2..]);
    var g := BracedAt(s[2..]).value;
    PrefixBehind(s, g.name + Closing(g.op, g.default));
  }

  lemma PrefixBehind(s: string, inner: string)
    requires |s| > 1 && s[..2] == "${" && inner <= s[2..]
    ensures "${" + inner <= s
  {
    assert s == s[..2] + s[2..];
  }

  lemma BareIsWritten(s: string)
    requires s != "" && s[0] == '$' && NameLength(s[1..]) > 0
    ensures var name := s[1..][..NameLength(s[1..])];
            Legal(Bare(name)) && Written(Bare(name)) <= s && Ends(Bare(name), s[|Written(Bare(name))|..])
  {
    assert s == "$" + s[1..];
  }

  lemma NamePrefix(name: string, more: string)
    requires IsName(name) && (more != "" ==> !IsNameChar(more[0]))
    ensures NameLength(name + more) == |name|
  {
    var s := name + more;
    assert forall i :: 0 <= i < |name| ==> s[i] == name[i];
    assert more != "" ==> s[|name|] == more[0];
    assert IsNameStart(s[0]);
  }

  lemma DefaultPrefix(default: string, more: string)
    requires NoBrace(default)
    ensures DefaultLength(default + ("}" + more)) == |default|
  {
    var s := default + ("}" + more);
    assert forall i :: 0 <= i < |default| ==> s[i] == default[i];
    assert s[|default|] == '}';
    assert forall i :: 0 <= i < DefaultLength(s) ==> s[..DefaultLength(s)][i] == s[i];
  }

  lemma OperatorPrefix(op: Operator, more: string)
    ensures OperatorAt(Sign(op) + more) == Some(op)
  {
  }

  lemma ClosingPrefix(op: Option<Operator>, default: string, more: string)
    requires NoBrace(default) && (op.None? ==> default == "")
    ensures ClosingAt((if op.Some? then Sign(op.value) else "") + (default + ("}" + more))) == Some((op, default))
  {
    var tail := default + ("}" + more);
    if op.Some? {
      OperatorPrefix(op.value, tail);
      DefaultPrefix(default, more);
      var s := Sign(op.value) + tail;
      assert s[|Sign(op.value)|..] == tail;
      assert tail[..|default|] == default;
    }
  }

  function Closing(op: Option<Operator>, default: string): string {
    (if op.Some? then Sign(op.value) else "") + (default + "}")
  }

  lemma ClosingIsClosing(op: Option<Operator>, default: string, more: string)
    requires NoBrace(default) && (op.None? ==> default == "")
    ensures ClosingAt(Closing(op, default) + more) == Some((op, default))
    ensures (Closing(op, default) + more)[0] in "}:-?"
  {
    var sign := if op.Some? then Sign(op.value) else "";
    assert Closing(op, default) + more == sign + (default + ("}" + more));
    ClosingPrefix(op, default, more);
  }

  lemma BracedPrefix(name: string, op: Option<Operator>, default: string, more: string)
    requires Legal(Braced(name, op, default))
    ensures BracedAt(name + (Closing(op, default) + more)) == Some(Braced(name, op, default))
  {
    var closing := Closing(op, default) + more;
    ClosingIsClosing(op, default, more);
    NamePrefix(name, closing);
    assert (name + closing)[|name|..] == closing && (name + closing)[..|name|] == name;
  }

  /** Whatever the pattern can match at this place, it does match: no two readings. */
  lemma LegalIsMatched(g: Segment, more: string)
    requires Legal(g) && Ends(g, more)
    ensures (Written(g) + more)[0] == '$' && MatchAt(Written(g) + more) == Some(g)
  {
    if g.Bare? {
      BareIsMatched(g.name, more);
    } else if g.Braced? {
      BracedIsMatched(g.name, g.op, g.default, more);
    }
  }

  lemma BareIsMatched(name: string, more: string)
    requires IsName(name) && Ends(Bare(name), more)
    ensures MatchAt("$" + name + more) == Some(Bare(name))
  {
    var s := "$" + name + more;
    NamePrefix(name, more);
    assert s[1..] == name + more;
    assert s[1] == name[0];
    assert (name + more)[..|name|] == name;
  }

  lemma BracedIsMatched(name: string, op: Option<Operator>, default: string, more: string)
    requires Legal(Braced(name, op, default))
    ensures MatchAt("${" + (name + Closing(op, default)) + more) == Some(Braced(name, op, default))
  {
    var inner := name + (Closing(op, default) + more);
    BracedPrefix(name, op, default, more);
    assert ("${" + inner)[2..] == inner;
    assert "${" + (name + Closing(op, default)) + more == "${" + inner;
  }

  lemma WrittenIsMatched(s: string, g: Segment)
    requires Legal(g) && Written(g) <= s && Ends(g, s[|Written(g)|..])
    ensures s != "" && s[0] == '$' && MatchAt(s) == Some(g)
  {
    var more := s[|Written(g)|..];
    LegalIsMatched(g, more);
    assert s == Written(g) + more;
  }

  /** The matcher is the pattern: it finds a segment exactly when the text starts with
      what the segment is written as, a bare name taken as far as it goes. */
  lemma MatchIffWritten(s: string, g: Segment)
    requires s != "" && s[0] == '$'
    ensures MatchAt(s) == Some(g) <==> Legal(g) && Written(g) <= s && Ends(g, s[|Written(g)|..])
  {
    if Legal(g) && Written(g) <= s && Ends(g, s[|Written(g)|..]) {
      WrittenIsMatched(s, g);
    } else if MatchAt(s) == Some(g) {
      MatchIsLegal(s);
      assert false;
    }
  }

  // ------------------------------------------------------------ one pass

  function First(s: string): (g: Segment)
    requires s != ""
    ensures Written(g) <= s && Written(g) != ""
  {
    if s[0] == '$' && MatchAt(s).Some? then
      MatchIsLegal(s);
      MatchAt(s).value
    else Plain(s[0])
  }

  /** The text cut into segments: no environment is consulted. */
  function Segments(s: string): seq<Segment>
    decreases |s|
  {
    if s == "" then [] else [First(s)] + Segments(s[|Written(First(s))|..])
  }

  function Unparse(gs: seq<Segment>): string {
    if gs == [] then "" else Written(gs[0]) + Unparse(gs[1..])
  }

  lemma UnparseFirst(g: Segment, rest: seq<Segment>)
    ensures Unparse([g] + rest) == Written(g) + Unparse(rest)
  {
    assert ([g] + rest)[1..] == rest;
  }

  /** Cutting loses nothing. */
  lemma {:induction false} SegmentsAreLossless(s: string)
    ensures Unparse(Segments(s)) == s
    decreases |s|
  {
    if s != "" {
      var g := First(s);
      var more := s[|Written(g)|..];
      SegmentsAreLossless(more);
      UnparseFirst(g, Segments(more));
      assert s == Written(g) + more;
    }
  }

  /** What replaces a segment, or the exception. */
  function Value(env: Environment, g: Segment): Result<string, InputError> {
    match g
    case Plain(c) => Ok([c])
    case Escaped => Ok("$")
    case Bare(name) => if name in env then Ok(env[name]) else Err(MissingVariable(name))
    case Braced(name, op, default) =>
      if name !in env then
        if op == Some(Dash) || op == Some(ColonDash) then Ok(default) else Err(MissingVariable(name))
      else if (op == Some(ColonDash) || op == Some(ColonQuestion)) && env[name] == "" then
        if op == Some(ColonDash) then Ok(default) else Err(EmptyVariable(name))
      else Ok(env[name])
  }

  function Before(a: string, r: Result<string, InputError>): Result<string, InputError> {
    if r.Ok? then Ok(a + r.value) else r
  }

  function Replace(env: Environment, gs: seq<Segment>): Result<string, InputError>
    decreases |gs|
  {
    if gs == [] then Ok("")
    else
      var first := Value(env, gs[0]);
      if first.Err? then first else Before(first.value, Replace(env, gs[1..]))
  }

  function Resolve(env: Environment, s: string): Result<string, InputError> {
    Replace(env, Segments(s))
  }

  lemma ResolveFirst(env: Environment, s: string)
    requires s != ""
    ensures var first := Value(env, First(s));
            Resolve(env, s)
            == if first.Err? then first else Before(first.value, Resolve(env, s[|Written(First(s))|..]))
  {
    var rest := Segments(s[|Written(First(s))|..]);
    assert ([First(s)] + rest)[1..] == rest;
  }

  // ------------------------------------------------------------ main results

  /** Every dollar sign doubled. */
  function Escape(a: string): string {
    if a == "" then "" else (if a[0] == '$' then "$$" else [a[0]]) + Escape(a[1..])
  }

  lemma BeforeTwice(a: string, b: string, r: Result<string, InputError>)
    ensures Before(a, Before(b, r)) == Before(a + b, r)
  {
    if r.Ok? { assert a + (b + r.value) == (a + b) + r.value; }
  }

  /** Escaped text comes out as it was, and what follows is resolved as if it stood
      alone, exceptions included. */
  lemma {:induction false} EscapeIsLiteral(env: Environment, a: string, b: string)
    ensures Resolve(env, Escape(a) + b) == Before(a, Resolve(env, b))
    decreases |a|
  {
    if a == "" {
      assert Escape(a) + b == b;
      if Resolve(env, b).Ok? { assert "" + Resolve(env, b).value == Resolve(env, b).value; }
    } else {
      var head := if a[0] == '$' then "$$" else [a[0]];
      var tail := Escape(a[1..]) + b;
      var s := Escape(a) + b;
      assert s == head + tail;
      assert First(s) == if a[0] == '$' then Escaped else Plain(a[0]);
      assert s[|head|..] == tail;
      ResolveFirst(env, s);
      EscapeIsLiteral(env, a[1..], b);
      BeforeTwice([a[0]], a[1..], Resolve(env, b));
      assert a == [a[0]] + a[1..];
    }
  }

  /** A placeholder is replaced by its value as it stands, whatever characters the value
      has, and reading goes on behind the placeholder: the value is never read again. */
  lemma ValueIsNotRescanned(env: Environment, g: Segment, b: string)
    requires Legal(g) && Ends(g, b)
    ensures Resolve(env, Written(g) + b)
         == if Value(env, g).Err? then Value(env, g) else Before(Value(env, g).value, Resolve(env, b))
  {
    var s := Written(g) + b;
    LegalIsMatched(g, b);
    assert First(s) == g;
    assert s[|Written(g)|..] == b;
    ResolveFirst(env, s);
  }

  /** What a reference asks of the environment. */
  predicate Permitted(env: Environment, g: Segment) {
    match g
    case Plain(_) => true
    case Escaped => true
    case Bare(name) => name in env
    case Braced(name, op, _) =>
      || op == Some(Dash) || op == Some(ColonDash)
      || (name in env && (op == Some(ColonQuestion) ==> env[name] != ""))
  }

  lemma PermittedIsOk(env: Environment, g: Segment)
    ensures Permitted(env, g) <==> Value(env, g).Ok?
  {
  }

  /** Resolution succeeds exactly when every reference has a value its operator accepts
      or a default; otherwise the first reference that has neither is reported. */
  lemma {:induction false} SucceedsIffPermitted(env: Environment, gs: seq<Segment>)
    ensures Replace(env, gs).Ok? <==> forall i :: 0 <= i < |gs| ==> Permitted(env, gs[i])
    ensures Replace(env, gs).Err? ==>
      exists i :: 0 <= i < |gs| && Replace(env, gs) == Value(env, gs[i])
                  && forall j :: 0 <= j < i ==> Permitted(env, gs[j])
    decreases |gs|
  {
    if gs != [] {
      var rest := gs[1..];
      SucceedsIffPermitted(env, rest);
      PermittedIsOk(env, gs[0]);
      if Permitted(env, gs[0]) {
        if Replace(env, rest).Err? {
          var i :| 0 <= i < |rest| && Replace(env, rest) == Value(env, rest[i])
                   && forall j :: 0 <= j < i ==> Permitted(env, rest[j]);
          forall j | 0 <= j < i + 1 ensures Permitted(env, gs[j]) {
            if j > 0 { assert gs[j] == rest[j - 1]; }
          }
          assert gs[i + 1] == rest[i];
        } else {
          forall i | 0 <= i < |gs| ensures Permitted(env, gs[i]) {
            if i > 0 { assert gs[i] == rest[i - 1]; }
          }
        }
      } else {
        assert Replace(env, gs) == Value(env, gs[0]);
      }
    }
  }

  predicate Mentions(s: string, name: string) {
    exists g <- Segments(s) :: (g.Bare? || g.Braced?) && g.name == name
  }

  predicate SameOn(a: Environment, b: Environment, name: string) {
    (name in a <==> name in b) && (name in a ==> a[name] == b[name])
  }

  lemma {:induction false} ReplaceAgrees(a: Environment, b: Environment, gs: seq<Segment>)
    requires forall g <- gs :: g.Bare? || g.Braced? ==> SameOn(a, b, g.name)
    ensures Replace(a, gs) == Replace(b, gs)
    decreases |gs|
  {
    if gs != [] {
      assert gs[0] in gs;
      ReplaceAgrees(a, b, gs[1..]);
    }
  }

  /** Only the variables written in the text matter; values cannot bring in others. */
  lemma OnlyMentionedMatter(a: Environment, b: Environment, s: string)
    requires forall name :: Mentions(s, name) ==> SameOn(a, b, name)
    ensures Resolve(a, s) == Resolve(b, s)
  {
    forall g <- Segments(s) | g.Bare? || g.Braced? ensures SameOn(a, b, g.name) {
      assert Mentions(s, g.name);
    }
    ReplaceAgrees(a, b, Segments(s));
  }

  // -------------------------------------------- each form of placeholder, as written

  predicate EndsName(more: string) {
    more == "" || !IsNameChar(more[0])
  }

  /** `$NAME`: the value, or an exception when there is none. */
  lemma BareVariable(env: Environment, name: string, more: string)
    requires IsName(name) && EndsName(more)
    ensures Resolve(env, "$" + name + more)
         == if name in env then Before(env[name], Resolve(env, more)) else Err(MissingVariable(name))
  {
    ValueIsNotRescanned(env, Bare(name), more);
  }

  /** `$$` stands for one dollar sign. */
  lemma DoubledDollar(env: Environment, more: string)
    ensures Resolve(env, "$$" + more) == Before("$", Resolve(env, more))
  {
    ValueIsNotRescanned(env, Escaped, more);
  }

  lemma BracedResolves(env: Environment, name: string, op: Option<Operator>, default: string, text: string, more: string)
    requires Legal(Braced(name, op, default)) && text == Written(Braced(name, op, default))
    ensures var v := Value(env, Braced(name, op, default));
            Resolve(env, text + more) == if v.Err? then v else Before(v.value, Resolve(env, more))
  {
    ValueIsNotRescanned(env, Braced(name, op, default), more);
  }

  /** `${NAME}` is `$NAME` with an explicit end. */
  lemma BracedVariable(env: Environment, name: string, more: string)
    requires IsName(name)
    ensures Resolve(env, "${" + name + "}" + more)
         == if name in env then Before(env[name], Resolve(env, more)) else Err(MissingVariable(name))
  {
    assert "${" + name + "}" == Written(Braced(name, None, ""));
    BracedResolves(env, name, None, "", "${" + name + "}", more);
  }

  /** `${NAME-default}`: the default only when the variable is not set. */
  lemma DefaultIfUnset(env: Environment, name: string, default: string, more: string)
    requires IsName(name) && NoBrace(default)
    ensures Resolve(env, "${" + name + "-" + default + "}" + more)
         == Before(if name in env then env[name] else default, Resolve(env, more))
  {
    var text := "${" + name + "-" + default + "}";
    assert text == "${" + (name + ("-" + (default + "}")));
    assert text == Written(Braced(name, Some(Dash), default));
    BracedResolves(env, name, Some(Dash), default, text, more);
  }

  /** `${NAME:-default}`: the default when the variable is not set or empty. */
  lemma DefaultIfEmpty(env: Environment, name: string, default: string, more: string)
    requires IsName(name) && NoBrace(default)
    ensures Resolve(env, "${" + name + ":-" + default + "}" + more)
         == Before(if name in env && env[name] != "" then env[name] else default, Resolve(env, more))
  {
    var text := "${" + name + ":-" + default + "}";
    assert text == "${" + (name + (":-" + (default + "}")));
    assert text == Written(Braced(name, Some(ColonDash), default));
    BracedResolves(env, name, Some(ColonDash), default, text, more);
  }

  /** `${NAME?hint}`: an exception when the variable is not set. */
  lemma RequiredToBeSet(env: Environment, name: string, hint: string, more: string)
    requires IsName(name) && NoBrace(hint)
    ensures Resolve(env, "${" + name + "?" + hint + "}" + more)
         == if name in env then Before(env[name], Resolve(env, more)) else Err(MissingVariable(name))
  {
    var text := "${" + name + "?" + hint + "}";
    assert text == "${" + (name + ("?" + (hint + "}")));
    assert text == Written(Braced(name, Some(Question), hint));
    BracedResolves(env, name, Some(Question), hint, text, more);
  }

  /** `${NAME:?hint}`: an exception when the variable is not set or empty. */
  lemma RequiredToBeNonEmpty(env: Environment, name: string, hint: string, more: string)
    requires IsName(name) && NoBrace(hint)
    ensures Resolve(env, "${" + name + ":?" + hint + "}" + more)
         == if name !in env then Err(MissingVariable(name))
            else if env[name] == "" then Err(EmptyVariable(name))
            else Before(env[name], Resolve(env, more))
  {
    var text := "${" + name + ":?" + hint + "}";
    assert text == "${" + (name + (":?" + (hint + "}")));
    assert text == Written(Braced(name, Some(ColonQuestion), hint));
    BracedResolves(env, name, Some(ColonQuestion), hint, text, more);
  }

  /** Any other character, and a dollar sign that begins no placeholder, stays as it is. */
  lemma OtherwiseLiteral(env: Environment, s: string)
    requires s != "" && (s[0] != '$' || forall g :: !(Legal(g) && Written(g) <= s && Ends(g, s[|Written(g)|..])))
    ensures Resolve(env, s) == Before([s[0]], Resolve(env, s[1..]))
  {
    if s[0] == '$' && MatchAt(s).Some? { MatchIsLegal(s); }
    assert First(s) == Plain(s[0]);
    ResolveFirst(env, s);
  }

  /** Names are ASCII letters, underscores and, behind the first character, digits. */
  lemma NameCharacters(c: char)
    ensures var code := c as int;
            && (IsName([c]) <==> 65 <= code <= 90 || 97 <= code <= 122 || code == 95)
            && (IsName(['_', c]) <==> IsName([c]) || 48 <= code <= 57)
  {
    assert ['_', c][0] == '_' && ['_', c][1] == c;
  }
}
