/** The path expressions of `json_path_equals`: `$.name[0].other`. */
module JsonPath {
  import opened Options
  import opened Json

  datatype PathError = InvalidPath

  const MAX_LENGTH: nat := 512

  predicate IsDigit(c: char) { '0' <= c <= '9' }

  predicate IsNameChar(c: char) {
    'A' <= c <= 'Z' || 'a' <= c <= 'z' || IsDigit(c) || c == '_' || c == '-'
  }

  predicate Starts(s: string, c: char) { s != "" && s[0] == c }

  /** Length of the longest prefix of name characters, of digits. */
  function NameLength(s: string): (n: nat)
    ensures n <= |s| && (forall i :: 0 <= i < n ==> IsNameChar(s[i])) && (n < |s| ==> !IsNameChar(s[n]))
  {
    if s == "" || !IsNameChar(s[0]) then 0 else 1 + NameLength(s[1..])
  }

  function DigitsLength(s: string): (n: nat)
    ensures n <= |s| && (forall i :: 0 <= i < n ==> IsDigit(s[i])) && (n < |s| ==> !IsDigit(s[n]))
  {
    if s == "" || !IsDigit(s[0]) then 0 else 1 + DigitsLength(s[1..])
  }

  predicate AllDigits(s: string) {
    s != "" && forall i :: 0 <= i < |s| ==> IsDigit(s[i])
  }

  predicate IsName(s: string) {
    s != "" && forall i :: 0 <= i < |s| ==> IsNameChar(s[i])
  }

  /** `int` on ASCII digits. */
  function NumberOfDigits(s: string): nat
    requires forall i :: 0 <= i < |s| ==> IsDigit(s[i])
  {
    if s == "" then 0
    else
      assert IsDigit(s[|s| - 1]);
      10 * NumberOfDigits(s[..|s| - 1]) + (s[|s| - 1] as int - '0' as int)
  }

  function DigitsOf(n: nat): (s: string)
    ensures AllDigits(s)
  {
    var last := [(('0' as int) + n % 10) as char];
    if n < 10 then last else DigitsOf(n / 10) + last
  }

  lemma {:induction false} DigitsRoundTrip(n: nat)
    ensures NumberOfDigits(DigitsOf(n)) == n
  {
    var s := DigitsOf(n);
    if n >= 10 {
      assert s[..|s| - 1] == DigitsOf(n / 10);
      DigitsRoundTrip(n / 10);
    } else {
      assert s[..|s| - 1] == "";
    }
  }

  // ------------------------------------------------------------ parsing

  /** The token at the start of a non-empty text and its length. */
  function FirstToken(s: string): (r: Option<(Token, nat)>)
    requires s != ""
    ensures r.Some? ==> 0 < r.value.1 <= |s|
  {
    if s[0] == '[' then
      var n := DigitsLength(s[1..]);
      if n > 0 && n + 1 < |s| && s[n + 1] == ']' then
        assert forall i :: 0 <= i < n ==> s[1..n + 1][i] == s[1..][i];
        Some((Index(NumberOfDigits(s[1..n + 1])), n + 2))
      else None
    else
      var n := NameLength(s);
      if n > 0 then Some((Member(s[..n]), n)) else None
  }

  /** What must follow a token: nothing, an index, or a dot and a name. */
  function Continue(s: string): (r: Option<string>)
    ensures r.Some? ==> |r.value| <= |s|
  {
    if Starts(s, '.') then
      if s[1..] == "" || Starts(s[1..], '[') then None else Some(s[1..])
    else if s != "" && s[0] != '[' then None
    else Some(s)
  }

  function Body(s: string): Option<seq<Token>>
    decreases |s|
  {
    if s == "" then Some([])
    else
      var first := FirstToken(s);
      if first.None? then None
      else
        var next := Continue(s[first.value.1..]);
        if next.None? then None else Prepend([first.value.0], Body(next.value))
  }

  function Prepend(tokens: seq<Token>, rest: Option<seq<Token>>): Option<seq<Token>> {
    if rest.None? then None else Some(tokens + rest.value)
  }

  lemma PrependTwice(a: seq<Token>, b: seq<Token>, rest: Option<seq<Token>>)
    ensures Prepend(a, Prepend(b, rest)) == Prepend(a + b, rest)
  {
    if rest.Some? { assert a + (b + rest.value) == (a + b) + rest.value; }
  }

  /** The text after the optional `$` and dot. */
  function Opening(path: string): Option<string>
    requires path != ""
  {
    var remaining := if path[0] == '$' then path[1..] else path;
    if Starts(remaining, '.') then Some(remaining[1..])
    else if path[0] == '$' && remaining != "" && remaining[0] != '[' then None
    else Some(remaining)
  }

  function Tokens(path: string): Result<seq<Token>, PathError> {
    if path == "" || |path| > MAX_LENGTH || Opening(path).None? then Err(InvalidPath)
    else match Body(Opening(path).value)
         case None => Err(InvalidPath)
         case Some(tokens) => Ok(tokens)
  }

  method Tokenize(path: string) returns (r: Result<seq<Token>, PathError>)
    ensures r == Tokens(path)
  {
    if path == "" || |path| > MAX_LENGTH {
      return Err(InvalidPath);
    }
    var remaining := if Starts(path, '$') then path[1..] else path;
    if Starts(remaining, '.') {
      remaining := remaining[1..];
    } else if Starts(path, '$') && remaining != "" && !Starts(remaining, '[') {
      return Err(InvalidPath);
    }
    ghost var whole := Body(remaining);
    var tokens: seq<Token> := [];
    assert whole.Some? ==> [] + whole.value == whole.value;
    while remaining != ""
      invariant whole == Prepend(tokens, Body(remaining))
      decreases |remaining|
    {
      var found := FirstToken(remaining);
      if found.None? {
        return Err(InvalidPath);
      }
      ghost var next := Continue(remaining[found.value.1..]);
      PrependTwice(tokens, [found.value.0], if next.None? then None else Body(next.value));
      tokens := tokens + [found.value.0];
      remaining := remaining[found.value.1..];
      if Starts(remaining, '.') {
        remaining := remaining[1..];
        if remaining == "" || Starts(remaining, '[') {
          return Err(InvalidPath);
        }
      } else if remaining != "" && !Starts(remaining, '[') {
        return Err(InvalidPath);
      }
    }
    assert tokens + [] == tokens;
    return Ok(tokens);
  }

  // ------------------------------------------------------------ the language

  /** A token as written: an index may have leading zeros. */
  datatype Piece = NamePiece(name: string) | IndexPiece(digits: string)

  predicate Legal(p: Piece) {
    match p
    case NamePiece(name) => IsName(name)
    case IndexPiece(digits) => AllDigits(digits)
  }

  function Meaning(p: Piece): Token
    requires Legal(p)
  {
    match p
    case NamePiece(name) => Member(name)
    case IndexPiece(digits) => Index(NumberOfDigits(digits))
  }

  function Written(p: Piece): string {
    match p
    case NamePiece(name) => name
    case IndexPiece(digits) => "[" + (digits + "]")
  }

  predicate AllLegal(ps: seq<Piece>) {
    forall i :: 0 <= i < |ps| ==> Legal(ps[i])
  }

  function Meanings(ps: seq<Piece>): seq<Token>
    requires AllLegal(ps)
  {
    if ps == [] then [] else [Meaning(ps[0])] + Meanings(ps[1..])
  }

  /** Pieces after other pieces: a name has a dot before it. */
  function Tail(ps: seq<Piece>): string
    decreases |ps|, 1
  {
    if ps != [] && ps[0].NamePiece? then "." + Spelled(ps) else Spelled(ps)
  }

  function Spelled(ps: seq<Piece>): string
    decreases |ps|, 0
  {
    if ps == [] then "" else Written(ps[0]) + Tail(ps[1..])
  }

  lemma NamePrefix(name: string, more: string)
    requires forall i :: 0 <= i < |name| ==> IsNameChar(name[i])
    requires more != "" ==> !IsNameChar(more[0])
    ensures NameLength(name + more) == |name|
  {
    assert forall i :: 0 <= i < |name| ==> (name + more)[i] == name[i];
    assert more != "" ==> (name + more)[|name|] == more[0];
  }

  lemma DigitsPrefix(digits: string, more: string)
    requires forall i :: 0 <= i < |digits| ==> IsDigit(digits[i])
    requires more != "" ==> !IsDigit(more[0])
    ensures DigitsLength(digits + more) == |digits|
  {
    assert forall i :: 0 <= i < |digits| ==> (digits + more)[i] == digits[i];
    assert more != "" ==> (digits + more)[|digits|] == more[0];
  }

  /** One written piece is read back, whatever pieces follow it. */
  lemma FirstPiece(p: Piece, more: string)
    requires Legal(p) && (more != "" ==> more[0] == '.' || more[0] == '[')
    ensures FirstToken(Written(p) + more) == Some((Meaning(p), |Written(p)|))
  {
    if p.NamePiece? { FirstName(p.name, more); } else { FirstIndex(p.digits, more); }
  }

  lemma FirstName(name: string, more: string)
    requires IsName(name) && (more != "" ==> more[0] == '.' || more[0] == '[')
    ensures FirstToken(name + more) == Some((Member(name), |name|))
  {
    NamePrefix(name, more);
    assert (name + more)[0] == name[0] && IsNameChar(name[0]);
    assert (name + more)[..|name|] == name;
  }

  lemma FirstIndex(digits: string, more: string)
    requires AllDigits(digits)
    ensures FirstToken("[" + (digits + "]") + more) == Some((Index(NumberOfDigits(digits)), |digits| + 2))
  {
    BracketRest(digits, more);
    IndexToken("[" + (digits + "]") + more, digits, "]" + more);
  }

  lemma BracketRest(digits: string, more: string)
    ensures var s := "[" + (digits + "]") + more;
            s[0] == '[' && s[1..] == digits + ("]" + more)
  {
  }

  lemma IndexToken(s: string, digits: string, rest: string)
    requires AllDigits(digits) && s != "" && s[0] == '[' && s[1..] == digits + rest && Starts(rest, ']')
    ensures FirstToken(s) == Some((Index(NumberOfDigits(digits)), |digits| + 2))
  {
    DigitsPrefix(digits, rest);
    assert s[|digits| + 1] == s[1..][|digits|] == rest[0];
    assert s[1..|digits| + 1] == s[1..][..|digits|] == digits;
  }

  lemma SpelledStarts(ps: seq<Piece>)
    requires AllLegal(ps) && ps != []
    ensures Spelled(ps) != "" && (Spelled(ps)[0] == '[' <==> ps[0].IndexPiece?)
    ensures ps[0].NamePiece? ==> IsNameChar(Spelled(ps)[0])
  {
    assert Legal(ps[0]);
    assert Spelled(ps)[0] == Written(ps[0])[0];
  }

  lemma ContinueTail(ps: seq<Piece>)
    requires AllLegal(ps)
    ensures Continue(Tail(ps)) == Some(Spelled(ps))
    ensures Tail(ps) != "" ==> Tail(ps)[0] == '.' || Tail(ps)[0] == '['
  {
    if ps != [] { SpelledStarts(ps); }
  }

  lemma BodyOneMore(p: Piece, more: string, next: string)
    requires Legal(p) && (more != "" ==> more[0] == '.' || more[0] == '[')
    requires Continue(more) == Some(next) && Body(next).Some?
    ensures Body(Written(p) + more) == Some([Meaning(p)] + Body(next).value)
  {
    FirstPiece(p, more);
    assert (Written(p) + more)[|Written(p)|..] == more;
  }

  /** Everything spelled is accepted, with its meaning. */
  lemma {:induction false} SpelledIsRead(ps: seq<Piece>)
    requires AllLegal(ps)
    ensures Body(Spelled(ps)) == Some(Meanings(ps))
    decreases |ps|
  {
    if ps != [] {
      SpelledIsRead(ps[1..]);
      ContinueTail(ps[1..]);
      BodyOneMore(ps[0], Tail(ps[1..]), Spelled(ps[1..]));
    }
  }

  lemma ReadFirst(s: string) returns (p: Piece)
    requires s != "" && FirstToken(s).Some?
    ensures Legal(p) && Meaning(p) == FirstToken(s).value.0 && Written(p) == s[..FirstToken(s).value.1]
    ensures p.NamePiece? <==> s[0] != '['
  {
    if s[0] == '[' {
      var n := DigitsLength(s[1..]);
      p := IndexPiece(s[1..n + 1]);
      assert forall i :: 0 <= i < n ==> s[1..n + 1][i] == s[1..][i];
      assert s[..n + 2] == "[" + (s[1..n + 1] + "]");
    } else {
      p := NamePiece(s[..NameLength(s)]);
    }
  }

  lemma SpelledOneMore(p: Piece, rest: seq<Piece>)
    requires Legal(p) && AllLegal(rest)
    ensures AllLegal([p] + rest)
    ensures Spelled([p] + rest) == Written(p) + Tail(rest)
    ensures Meanings([p] + rest) == [Meaning(p)] + Meanings(rest)
  {
    assert ([p] + rest)[1..] == rest;
  }

  lemma BodyParts(s: string)
    requires s != "" && Body(s).Some?
    ensures FirstToken(s).Some?
    ensures var next := Continue(s[FirstToken(s).value.1..]);
            next.Some? && Body(next.value).Some? && Body(s).value == [FirstToken(s).value.0] + Body(next.value).value
  {
  }

  /** The first piece of an accepted text, and what follows it. */
  lemma ReadOne(s: string) returns (p: Piece, more: string, next: string)
    requires s != "" && Body(s).Some?
    ensures Legal(p) && s == Written(p) + more && Continue(more) == Some(next) && |next| < |s|
    ensures Body(next).Some? && Body(s).value == [Meaning(p)] + Body(next).value
  {
    BodyParts(s);
    p := ReadFirst(s);
    var n := FirstToken(s).value.1;
    more := s[n..];
    next := Continue(more).value;
    assert s == s[..n] + s[n..];
  }

  /** Everything accepted is spelled. */
  lemma {:induction false} ReadIsSpelled(s: string) returns (ps: seq<Piece>)
    requires Body(s).Some?
    ensures AllLegal(ps) && Spelled(ps) == s && Meanings(ps) == Body(s).value
    decreases |s|
  {
    if s == "" {
      return [];
    }
    var first, more, next := ReadOne(s);
    var rest := ReadIsSpelled(next);
    NextIsTail(more, rest);
    SpelledOneMore(first, rest);
    ps := [first] + rest;
  }

  lemma NextIsTail(s: string, rest: seq<Piece>)
    requires Continue(s) == Some(Spelled(rest)) && AllLegal(rest)
    ensures s == Tail(rest)
  {
    if rest != [] { SpelledStarts(rest); }
    if Starts(s, '.') {
      assert s == "." + s[1..];
    }
  }

  /** How a path may open before its pieces. */
  predicate Opens(prefix: string, ps: seq<Piece>) {
    prefix == "" || prefix == "." || prefix == "$." || (prefix == "$" && (ps == [] || ps[0].IndexPiece?))
  }

  lemma OpensIsOpening(prefix: string, ps: seq<Piece>)
    requires AllLegal(ps) && prefix + Spelled(ps) != "" && Opens(prefix, ps)
    ensures Opening(prefix + Spelled(ps)) == Some(Spelled(ps))
  {
    var s := Spelled(ps);
    var path := prefix + s;
    if ps != [] { SpelledStarts(ps); }
    if prefix == "$." {
      DollarDot(s);
    } else if prefix == "." {
      assert path[1..] == s;
    } else if prefix == "" {
      assert path == s;
    } else {
      assert path[1..] == s;
    }
  }

  lemma DollarDot(s: string)
    ensures Opening("$." + s) == Some(s)
  {
    var path := "$." + s;
    assert path[1..] == "." + s;
    assert path[1..][1..] == s;
  }

  lemma OpeningIsOpens(path: string, ps: seq<Piece>) returns (prefix: string)
    requires AllLegal(ps) && path != "" && Opening(path) == Some(Spelled(ps))
    ensures Opens(prefix, ps) && path == prefix + Spelled(ps)
  {
    if ps != [] { SpelledStarts(ps); }
    prefix := path[..|path| - |Spelled(ps)|];
    assert path == prefix + path[|prefix|..];
  }

  /** The accepted paths, exactly: at most 512 characters, an optional `$` and dot,
      then names and bracketed numbers with a dot before each name but the first. */
  lemma AcceptedPaths(path: string, tokens: seq<Token>)
    ensures Tokens(path) == Ok(tokens) <==>
      && 0 < |path| <= 512
      && exists prefix, ps :: AllLegal(ps) && Opens(prefix, ps) && path == prefix + Spelled(ps) && Meanings(ps) == tokens
  {
    if Tokens(path) == Ok(tokens) {
      var ps := ReadIsSpelled(Opening(path).value);
      var prefix := OpeningIsOpens(path, ps);
    }
    if 0 < |path| <= MAX_LENGTH {
      forall prefix, ps | AllLegal(ps) && Opens(prefix, ps) && path == prefix + Spelled(ps) && Meanings(ps) == tokens
        ensures Tokens(path) == Ok(tokens)
      {
        OpensIsOpening(prefix, ps);
        SpelledIsRead(ps);
      }
    }
  }

  /** Names are ASCII letters, digits, underscores and hyphens; numbers are decimal. */
  lemma WrittenCharacters(c: char, s: string)
    ensures var code := c as int;
            IsName([c]) <==> 48 <= code <= 57 || 65 <= code <= 90 || 97 <= code <= 122 || code == 95 || code == 45
    ensures AllDigits([c]) <==> 48 <= c as int <= 57
    ensures AllDigits(s) && AllDigits([c]) ==>
      AllDigits(s + [c]) && NumberOfDigits(s + [c]) == 10 * NumberOfDigits(s) + (c as int - 48)
    ensures AllDigits([c]) ==> NumberOfDigits([c]) == c as int - 48
  {
    assert [c][0] == c && [c][..0] == "";
    assert (s + [c])[..|s|] == s;
    if AllDigits(s) && AllDigits([c]) {
      forall i | 0 <= i < |s + [c]| ensures IsDigit((s + [c])[i]) {
        if i < |s| { assert IsDigit(s[i]); } else { assert IsDigit([c][0]); }
      }
    }
  }

  // ------------------------------------------------------------ round trip

  function PieceOf(t: Token): Piece {
    match t
    case Member(name) => NamePiece(name)
    case Index(position) => IndexPiece(DigitsOf(position))
  }

  predicate Renderable(tokens: seq<Token>) {
    forall i :: 0 <= i < |tokens| ==> tokens[i].Member? ==> IsName(tokens[i].name)
  }

  /** `$`, then `.name` or `[n]` for each token. */
  function Render(tokens: seq<Token>): string {
    "$" + RenderTokens(tokens)
  }

  function RenderTokens(tokens: seq<Token>): string {
    if tokens == [] then ""
    else match tokens[0]
         case Member(name) => "." + (name + RenderTokens(tokens[1..]))
         case Index(position) => "[" + (DigitsOf(position) + "]") + RenderTokens(tokens[1..])
  }

  function PiecesOf(tokens: seq<Token>): seq<Piece> {
    if tokens == [] then [] else [PieceOf(tokens[0])] + PiecesOf(tokens[1..])
  }

  lemma {:induction false} RenderIsTail(tokens: seq<Token>)
    ensures RenderTokens(tokens) == Tail(PiecesOf(tokens))
    decreases |tokens|
  {
    if tokens != [] {
      RenderIsTail(tokens[1..]);
      assert PiecesOf(tokens)[1..] == PiecesOf(tokens[1..]);
    }
  }

  lemma {:induction false} PiecesMean(tokens: seq<Token>)
    requires Renderable(tokens)
    ensures AllLegal(PiecesOf(tokens)) && Meanings(PiecesOf(tokens)) == tokens
    decreases |tokens|
  {
    if tokens != [] {
      PiecesMean(tokens[1..]);
      if tokens[0].Index? { DigitsRoundTrip(tokens[0].position); }
    }
  }

  lemma {:induction false} MeaningsRenderable(ps: seq<Piece>)
    requires AllLegal(ps)
    ensures Renderable(Meanings(ps))
    decreases |ps|
  {
    if ps != [] {
      MeaningsRenderable(ps[1..]);
      assert Legal(ps[0]);
    }
  }

  /** Rendering a list of names and indices and tokenizing it gives the list back. */
  lemma PathRoundTrip(tokens: seq<Token>)
    requires Renderable(tokens) && |Render(tokens)| <= MAX_LENGTH
    ensures Tokens(Render(tokens)) == Ok(tokens)
  {
    var ps := PiecesOf(tokens);
    PiecesMean(tokens);
    RenderIsTail(tokens);
    var prefix := if ps != [] && ps[0].NamePiece? then "$." else "$";
    assert Render(tokens) == prefix + Spelled(ps);
    AcceptedPaths(Render(tokens), tokens);
  }

  /** Every accepted path has a rendering with the same tokens, if it still fits. */
  lemma AcceptedIsRenderable(path: string)
    requires Tokens(path).Ok?
    ensures Renderable(Tokens(path).value)
    ensures |Render(Tokens(path).value)| <= MAX_LENGTH ==> Tokens(Render(Tokens(path).value)) == Tokens(path)
  {
    var tokens := Tokens(path).value;
    AcceptedPaths(path, tokens);
    var prefix, ps :| AllLegal(ps) && Opens(prefix, ps) && path == prefix + Spelled(ps) && Meanings(ps) == tokens;
    MeaningsRenderable(ps);
    if |Render(tokens)| <= MAX_LENGTH { PathRoundTrip(tokens); }
  }
}
