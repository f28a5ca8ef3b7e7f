/** Paths inside an application's workspace. */
module WorkspacePaths {
  import opened Options

  /** A path below the root, as its parts. */
  type Path = seq<string>

  datatype WorkspaceError =
    | BadPath | NoFiles | Overlap | TooManyFiles | Conflict | UploadTooLarge | QuotaExceeded
    | NotFound | NotAFile

  const MAX_PATH_LENGTH: nat := 1024

  /** The parts between slashes, empty ones included. */
  function Split(s: string): (r: seq<string>)
    ensures r != []
    decreases |s|
  {
    if s == "" then [""]
    else
      var rest := Split(s[1..]);
      if s[0] == '/' then [""] + rest else [[s[0]] + rest[0]] + rest[1..]
  }

  function Join(parts: seq<string>): string
    requires parts != []
  {
    if |parts| == 1 then parts[0] else parts[0] + ("/" + Join(parts[1..]))
  }

  /** `PurePosixPath` forgets empty parts and single dots. */
  function Parts(pieces: seq<string>): Path {
    if pieces == [] then []
    else if pieces[0] == "" || pieces[0] == "." then Parts(pieces[1..])
    else [pieces[0]] + Parts(pieces[1..])
  }

  predicate Printable(s: string) {
    forall i :: 0 <= i < |s| ==> s[i] as int >= 32 && s[i] != '\\' && s[i] != ':'
  }

  function RelativePath(value: string): Result<Path, WorkspaceError> {
    if value == "" || !Printable(value) || value[0] == '/' || value[0] == '~' then Err(BadPath)
    else
      var path := Parts(Split(value));
      if ".." in path || ".git" in path || |value| > MAX_PATH_LENGTH || path == [] then Err(BadPath)
      else Ok(path)
  }

  // ------------------------------------------------------------ what is accepted

  predicate NoSlash(s: string) {
    forall i :: 0 <= i < |s| ==> s[i] != '/'
  }

  /** A part that names one entry of a directory and leads nowhere else. */
  predicate SafePart(s: string) {
    s != "" && s != "." && s != ".." && s != ".git" && NoSlash(s) && Printable(s)
  }

  predicate SafePath(p: Path) {
    p != [] && forall i :: 0 <= i < |p| ==> SafePart(p[i])
  }

  lemma {:induction false} SplitParts(s: string)
    ensures forall piece <- Split(s) :: NoSlash(piece) && (Printable(s) ==> Printable(piece))
    ensures s != "" && s[0] != '/' ==> Split(s)[0] != "" && Split(s)[0][0] == s[0]
    decreases |s|
  {
    if s != "" {
      SplitParts(s[1..]);
      assert Printable(s) ==> Printable(s[1..]);
      forall piece <- Split(s) ensures NoSlash(piece) && (Printable(s) ==> Printable(piece)) {
        var rest := Split(s[1..]);
        assert rest[0] in rest;
        if s[0] != '/' && piece !in rest {
          assert piece == [s[0]] + rest[0];
        }
      }
    }
  }

  lemma {:induction false} PartsKept(pieces: seq<string>)
    ensures forall part <- Parts(pieces) :: part in pieces && part != "" && part != "."
    ensures pieces != [] && pieces[0] != "" && pieces[0] != "." ==> Parts(pieces) != [] && Parts(pieces)[0] == pieces[0]
    decreases |pieces|
  {
    if pieces != [] { PartsKept(pieces[1..]); }
  }

  lemma {:induction false} AllKept(p: Path)
    requires forall i :: 0 <= i < |p| ==> p[i] != "" && p[i] != "."
    ensures Parts(p) == p
    decreases |p|
  {
    if p != [] { AllKept(p[1..]); }
  }

  lemma {:induction false} SplitPiece(piece: string, more: string)
    requires NoSlash(piece)
    ensures Split(piece + ("/" + more)) == [piece] + Split(more)
    decreases |piece|
  {
    var s := piece + ("/" + more);
    if piece == "" {
      assert s == "/" + more && s[1..] == more;
    } else {
      assert s[1..] == piece[1..] + ("/" + more);
      SplitPiece(piece[1..], more);
      assert ([piece[1..]] + Split(more))[1..] == Split(more);
      assert [s[0]] + piece[1..] == piece;
    }
  }

  lemma {:induction false} SplitOne(piece: string)
    requires NoSlash(piece)
    ensures Split(piece) == [piece]
    decreases |piece|
  {
    if piece != "" {
      SplitOne(piece[1..]);
      assert [piece[0]] + piece[1..] == piece;
    }
  }

  lemma {:induction false} SplitJoin(parts: seq<string>)
    requires parts != [] && forall i :: 0 <= i < |parts| ==> NoSlash(parts[i])
    ensures Split(Join(parts)) == parts
    decreases |parts|
  {
    if |parts| == 1 {
      SplitOne(parts[0]);
    } else {
      SplitJoin(parts[1..]);
      SplitPiece(parts[0], Join(parts[1..]));
    }
  }

  lemma {:induction false} JoinPrintable(parts: seq<string>)
    requires parts != [] && forall i :: 0 <= i < |parts| ==> Printable(parts[i])
    ensures Printable(Join(parts))
    decreases |parts|
  {
    if |parts| > 1 { JoinPrintable(parts[1..]); }
  }

  /** An accepted path stays below the root: no part leads up, names a Git directory
      or contains a separator. */
  lemma AcceptedPathIsSafe(value: string)
    requires RelativePath(value).Ok?
    ensures SafePath(RelativePath(value).value)
  {
    var pieces := Split(value);
    SplitParts(value);
    PartsKept(pieces);
    var p := Parts(pieces);
    forall i | 0 <= i < |p| ensures SafePart(p[i]) {
      assert p[i] in p;
    }
  }

  /** A spelling that survives the check for a leading tilde. */
  function Spelling(p: Path): string
    requires SafePath(p)
  {
    assert SafePart(p[0]);
    if p[0][0] == '~' then "./" + Join(p) else Join(p)
  }

  lemma SpellingParts(p: Path)
    requires SafePath(p)
    ensures Parts(Split(Spelling(p))) == p
  {
    SplitJoin(p);
    AllKept(p);
    assert SafePart(p[0]);
    if p[0][0] == '~' {
      var joined := Join(p);
      assert "./" + joined == "." + ("/" + joined);
      SplitPiece(".", joined);
      assert (["."] + p)[1..] == p;
    }
  }

  lemma SpellingStarts(p: Path)
    requires SafePath(p)
    ensures Spelling(p) != "" && Spelling(p)[0] != '/' && Spelling(p)[0] != '~' && Printable(Spelling(p))
  {
    JoinPrintable(p);
    assert SafePart(p[0]) && Join(p)[0] == p[0][0];
  }

  /** Every safe path can be written, and is read back as itself. */
  lemma PathRoundTrip(p: Path)
    requires SafePath(p) && |Spelling(p)| <= MAX_PATH_LENGTH
    ensures RelativePath(Spelling(p)) == Ok(p)
  {
    SpellingParts(p);
    SpellingStarts(p);
    assert forall i :: 0 <= i < |p| ==> SafePart(p[i]);
  }

  // ------------------------------------------------- how a name falls into parts

  lemma {:induction false} SplitSlash(a: string, b: string)
    ensures Split(a + ("/" + b)) == Split(a) + Split(b)
    decreases |a|
  {
    var s := a + ("/" + b);
    if a == "" {
      assert s == "/" + b && s[1..] == b;
    } else {
      assert s[0] == a[0] && s[1..] == a[1..] + ("/" + b);
      SplitSlash(a[1..], b);
      AddToFirst(a[0], Split(a[1..]), Split(b));
    }
  }

  lemma AddToFirst(c: char, x: seq<string>, y: seq<string>)
    requires x != []
    ensures [""] + (x + y) == ([""] + x) + y
    ensures [[c] + (x + y)[0]] + (x + y)[1..] == ([[c] + x[0]] + x[1..]) + y
  {
  }

  lemma {:induction false} PartsJoin(x: seq<string>, y: seq<string>)
    ensures Parts(x + y) == Parts(x) + Parts(y)
    decreases |x|
  {
    if x == [] {
      assert x + y == y;
    } else {
      assert (x + y)[1..] == x[1..] + y;
      PartsJoin(x[1..], y);
    }
  }

  function PartsOf(value: string): Path {
    Parts(Split(value))
  }

  /** A slash separates: the parts before it come first, then the parts after it. */
  lemma SlashSeparates(a: string, b: string)
    ensures PartsOf(a + ("/" + b)) == PartsOf(a) + PartsOf(b)
  {
    SplitSlash(a, b);
    PartsJoin(Split(a), Split(b));
  }

  /** A piece without a slash is one part, unless it is empty or a single dot. */
  lemma OnePart(piece: string)
    requires NoSlash(piece)
    ensures PartsOf(piece) == if piece == "" || piece == "." then [] else [piece]
  {
    SplitOne(piece);
    assert [piece][0] == piece && [piece][1..] == [];
    assert Parts([]) == [];
    assert Parts([piece]) == if piece == "" || piece == "." then [] else [piece] + [];
  }

  /** A name is accepted exactly when it is not empty, at most 1024 characters long, without
      control characters, backslashes and colons, does not begin with a slash or a tilde,
      and has a part, but none that is `..` or `.git`; then it is read as its parts. */
  lemma AcceptedExactly(value: string)
    ensures RelativePath(value).Ok? <==>
      && 0 < |value| <= 1024
      && (forall i :: 0 <= i < |value| ==> value[i] as int > 31 && value[i] as int != 92 && value[i] as int != 58)
      && value[0] != '/' && value[0] != '~'
      && PartsOf(value) != [] && ".." !in PartsOf(value) && ".git" !in PartsOf(value)
    ensures RelativePath(value).Ok? ==> RelativePath(value).value == PartsOf(value)
  {
  }

  lemma PieceIsSkipped(a: string, piece: string, b: string)
    requires piece == "" || piece == "."
    ensures PartsOf(a + ("/" + (piece + ("/" + b)))) == PartsOf(a + ("/" + b))
  {
    BetweenSlashes(a, piece, b);
    SlashSeparates(a, b);
    OnePart(piece);
  }

  lemma PieceIsPrintable(piece: string, b: string)
    requires piece == "" || piece == "."
    ensures Printable("/" + (piece + ("/" + b))) <==> Printable("/" + b)
  {
    PrintableParts("/", piece + ("/" + b));
    PrintableParts(piece, "/" + b);
  }

  /** An empty piece between slashes, or a single dot, makes no difference. */
  lemma SkippedPieces(a: string, piece: string, b: string)
    requires a != "" && (piece == "" || piece == ".") && |a| + |b| + 3 <= 1024
    ensures RelativePath(a + ("/" + (piece + ("/" + b)))) == RelativePath(a + ("/" + b))
  {
    PieceIsSkipped(a, piece, b);
    PieceIsPrintable(piece, b);
    SameParts(a, "/" + (piece + ("/" + b)), "/" + b);
  }

  lemma BetweenSlashes(a: string, piece: string, b: string)
    ensures PartsOf(a + ("/" + (piece + ("/" + b)))) == PartsOf(a) + PartsOf(piece) + PartsOf(b)
  {
    SlashSeparates(a, piece + ("/" + b));
    SlashSeparates(piece, b);
  }

  lemma SameParts(a: string, x: string, y: string)
    requires a != "" && (Printable(x) <==> Printable(y)) && |a| + |x| <= 1024 && |a| + |y| <= 1024
    ensures PartsOf(a + x) == PartsOf(a + y) ==> RelativePath(a + x) == RelativePath(a + y)
  {
    PrintableParts(a, x);
    PrintableParts(a, y);
  }

  lemma PrintableParts(a: string, x: string)
    ensures Printable(a + x) <==> Printable(a) && Printable(x)
  {
    var s := a + x;
    assert forall i :: 0 <= i < |a| ==> s[i] == a[i];
    assert forall i :: 0 <= i < |x| ==> s[|a| + i] == x[i];
  }
}
