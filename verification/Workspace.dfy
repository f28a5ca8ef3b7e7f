/** One application's file tree: batches that commit whole, deletion that prunes. */
module Workspace {
  import opened Options
  import opened WorkspacePaths

  type Bytes = seq<bv8>
  type Files = map<Path, Bytes>

  datatype Limits = Limits(maxUploadBytes: nat, maxBytes: nat, maxFiles: nat)

  datatype Upload = Upload(name: string, content: Bytes)

  datatype Item = Item(path: Path, content: Bytes)

  // ------------------------------------------------------------ directories

  predicate Above(a: Path, p: Path) {
    a != [] && |a| < |p| && a == p[..|a|]
  }

  /** The directories strictly between the root and a file. */
  function Parents(p: Path): set<Path> {
    set k | 1 <= k < |p| :: p[..k]
  }

  function ParentsOf(ps: set<Path>): set<Path> {
    set p <- ps, a <- Parents(p) :: a
  }

  lemma ParentsAreAbove(a: Path, p: Path)
    ensures a in Parents(p) <==> Above(a, p)
  {
    if Above(a, p) { assert p[..|a|] == a; }
  }

  /** Directories are exactly those some file needs, and no file lies where a
      directory is needed. */
  ghost predicate Tidy(files: set<Path>, dirs: set<Path>) {
    [] !in files && dirs == ParentsOf(files) && files !! dirs
  }

  predicate ChildOf(c: Path, d: Path) {
    |c| == |d| + 1 && c[..|d|] == d
  }

  predicate IsEmptyDirectory(files: set<Path>, dirs: set<Path>, d: Path) {
    forall c <- files + dirs :: !ChildOf(c, d)
  }

  /** In a tidy tree every directory has an entry. */
  lemma NoEmptyDirectory(files: set<Path>, dirs: set<Path>, d: Path)
    requires Tidy(files, dirs) && d in dirs
    ensures !IsEmptyDirectory(files, dirs, d)
  {
    var f :| f in files && d in Parents(f);
    ParentsAreAbove(d, f);
    ChildTowards(files, d, f);
  }

  lemma ChildTowards(files: set<Path>, d: Path, f: Path)
    requires f in files && Above(d, f)
    ensures f[..|d| + 1] in files + ParentsOf(files) && ChildOf(f[..|d| + 1], d)
  {
    var c := f[..|d| + 1];
    assert c[..|d|] == d;
    if |c| < |f| {
      assert c in Parents(f);
    } else {
      assert c == f;
    }
  }

  // ------------------------------------------------------------ sizes

  ghost function Total(sizes: map<Path, nat>): nat
    decreases |sizes|
  {
    if sizes == map[] then 0
    else var p :| p in sizes; sizes[p] + Total(sizes - {p})
  }

  /** Any entry may be summed first. */
  lemma {:induction false} TotalWithout(sizes: map<Path, nat>, p: Path)
    requires p in sizes
    ensures Total(sizes) == sizes[p] + Total(sizes - {p})
    decreases |sizes|
  {
    var q :| q in sizes && Total(sizes) == sizes[q] + Total(sizes - {q});
    if q != p {
      TotalWithout(sizes - {q}, p);
      TotalWithout(sizes - {p}, q);
      assert sizes - {q} - {p} == sizes - {p} - {q};
    }
  }

  function Sizes(files: Files): map<Path, nat> {
    map p <- files :: |files[p]|
  }

  method SumSizes(sizes: map<Path, nat>) returns (total: nat)
    ensures total == Total(sizes)
  {
    total := 0;
    var rest := sizes;
    while rest != map[]
      invariant total + Total(rest) == Total(sizes)
      decreases |rest|
    {
      var p :| p in rest;
      TotalWithout(rest, p);
      total := total + rest[p];
      rest := rest - {p};
    }
  }

  // ------------------------------------------------------------ what an upload does

  function Paths(batch: seq<Item>): set<Path> {
    set item <- batch :: item.path
  }

  predicate NoOverlap(batch: seq<Item>) {
    && (forall i, j :: 0 <= i < j < |batch| ==> batch[i].path != batch[j].path)
    && (forall i, j :: 0 <= i < |batch| && 0 <= j < |batch| ==> !Above(batch[i].path, batch[j].path))
  }

  /** The batch with its names read, or the first name's error. */
  function Read(uploads: seq<Upload>): Result<seq<Item>, WorkspaceError>
    decreases |uploads|
  {
    if uploads == [] then Ok([])
    else match RelativePath(uploads[0].name)
         case Err(e) => Err(e)
         case Ok(path) =>
           match Read(uploads[1..])
           case Err(e) => Err(e)
           case Ok(rest) => Ok([Item(path, uploads[0].content)] + rest)
  }

  lemma {:induction false} ReadPaths(uploads: seq<Upload>)
    requires Read(uploads).Ok?
    ensures |Read(uploads).value| == |uploads|
    ensures forall i :: 0 <= i < |uploads| ==> Read(uploads).value[i].path != []
    decreases |uploads|
  {
    if uploads != [] { ReadPaths(uploads[1..]); }
  }

  /** A batch is read when every name is accepted, and then has each name's path with its
      content, in order; otherwise some name is refused. */
  lemma {:induction false} ReadIs(uploads: seq<Upload>)
    ensures Read(uploads).Ok? <==> forall i :: 0 <= i < |uploads| ==> RelativePath(uploads[i].name).Ok?
    ensures Read(uploads).Ok? ==>
      && |Read(uploads).value| == |uploads|
      && forall i :: 0 <= i < |uploads| ==>
           && RelativePath(uploads[i].name) == Ok(Read(uploads).value[i].path)
           && Read(uploads).value[i].content == uploads[i].content
    decreases |uploads|
  {
    if uploads != [] {
      var rest := uploads[1..];
      ReadIs(rest);
      assert forall i :: 0 <= i < |rest| ==> rest[i] == uploads[i + 1];
      if Read(uploads).Ok? {
        var batch := Read(uploads).value;
        forall i | 0 <= i < |uploads| ensures RelativePath(uploads[i].name) == Ok(batch[i].path) && batch[i].content == uploads[i].content {
          if i > 0 { assert uploads[i] == rest[i - 1] && batch[i] == Read(rest).value[i - 1]; }
        }
      } else if Read(rest).Err? {
        var i :| 0 <= i < |rest| && RelativePath(rest[i].name).Err?;
        assert uploads[i + 1] == rest[i];
      }
    }
  }

  /** Later items win, as in a dictionary; accepted batches have no two alike. */
  function Stored(files: Files, batch: seq<Item>): Files
    decreases |batch|
  {
    if batch == [] then files
    else Stored(files, batch[..|batch| - 1])[batch[|batch| - 1].path := batch[|batch| - 1].content]
  }

  function BytesOf(batch: seq<Item>): nat
    decreases |batch|
  {
    if batch == [] then 0 else BytesOf(batch[..|batch| - 1]) + |batch[|batch| - 1].content|
  }

  /** The target is a directory, or a file stands where one of its parents must be. */
  predicate Clashes(files: set<Path>, dirs: set<Path>, p: Path) {
    p in dirs || exists a <- Parents(p) :: a in files
  }

  /** The first reason the staging loop finds to stop. */
  function StagingError(limits: Limits, files: set<Path>, dirs: set<Path>, batch: seq<Item>): Option<WorkspaceError>
    decreases |batch|
  {
    if batch == [] then None
    else
      var before := StagingError(limits, files, dirs, batch[..|batch| - 1]);
      if before.Some? then before
      else if Clashes(files, dirs, batch[|batch| - 1].path) then Some(Conflict)
      else if BytesOf(batch) > limits.maxUploadBytes then Some(UploadTooLarge)
      else None
  }

  ghost function UploadError(limits: Limits, files: Files, dirs: set<Path>, uploads: seq<Upload>): Option<WorkspaceError> {
    if uploads == [] then Some(NoFiles)
    else match Read(uploads)
         case Err(e) => Some(e)
         case Ok(batch) =>
           if !NoOverlap(batch) then Some(Overlap)
           else if |batch| > limits.maxFiles then Some(TooManyFiles)
           else if StagingError(limits, files.Keys, dirs, batch).Some? then
             StagingError(limits, files.Keys, dirs, batch)
           else if Total(Sizes(Stored(files, batch))) > limits.maxBytes
                   || |Stored(files, batch)| > limits.maxFiles then Some(QuotaExceeded)
           else None
  }

  ghost predicate WithinQuota(limits: Limits, files: Files) {
    Total(Sizes(files)) <= limits.maxBytes && |files| <= limits.maxFiles
  }

  function DeleteError(files: Files, dirs: set<Path>, name: string): Option<WorkspaceError> {
    match RelativePath(name)
    case Err(e) => Some(e)
    case Ok(p) => if p in files then None else if p in dirs then Some(NotAFile) else Some(NotFound)
  }

  /** A deletion is refused for a bad name, for a directory, and for nothing there. */
  lemma DeletedExactly(files: Files, dirs: set<Path>, name: string)
    ensures RelativePath(name).Err? ==> DeleteError(files, dirs, name) == Some(RelativePath(name).error)
    ensures RelativePath(name).Ok? ==>
      var p := RelativePath(name).value;
      && (DeleteError(files, dirs, name) == None <==> p in files)
      && (DeleteError(files, dirs, name) == Some(NotAFile) <==> p in dirs && p !in files)
      && (DeleteError(files, dirs, name) == Some(NotFound) <==> p !in dirs && p !in files)
  {
  }

  // ------------------------------------------------------------ keeping the tree tidy

  lemma {:induction false} StoredKeys(files: Files, batch: seq<Item>)
    ensures Stored(files, batch).Keys == files.Keys + Paths(batch)
    decreases |batch|
  {
    if batch != [] {
      StoredKeys(files, batch[..|batch| - 1]);
      assert batch == batch[..|batch| - 1] + [batch[|batch| - 1]];
    }
  }

  /** An accepted batch ends up as sent, and every other file as it was. */
  lemma {:induction false} StoredIsBatch(files: Files, batch: seq<Item>, p: Path)
    requires NoOverlap(batch) && p in Stored(files, batch)
    ensures forall i :: 0 <= i < |batch| && batch[i].path == p ==> Stored(files, batch)[p] == batch[i].content
    ensures p !in Paths(batch) ==> p in files && Stored(files, batch)[p] == files[p]
    decreases |batch|
  {
    if batch != [] {
      var rest := batch[..|batch| - 1];
      assert batch == rest + [batch[|batch| - 1]];
      if p in Stored(files, rest) { StoredIsBatch(files, rest, p); }
      StoredKeys(files, rest);
      assert forall i :: 0 <= i < |rest| ==> rest[i].path in Paths(rest);
    }
  }

  /** The bytes of a batch are those of its parts. */
  lemma {:induction false} BytesJoin(a: seq<Item>, b: seq<Item>)
    ensures BytesOf(a + b) == BytesOf(a) + BytesOf(b)
    ensures forall x: Item :: BytesOf([x]) == |x.content|
    decreases |b|
  {
    forall x: Item ensures BytesOf([x]) == |x.content| {
      assert [x][..0] == [];
    }
    if b == [] {
      assert a + b == a;
    } else {
      assert (a + b)[..|a + b| - 1] == a + b[..|b| - 1];
      BytesJoin(a, b[..|b| - 1]);
    }
  }

  /** The target is an existing directory, or one of its parents is an existing file. */
  predicate InTheWay(files: set<Path>, dirs: set<Path>, p: Path) {
    p in dirs || exists a <- files :: a != [] && |a| < |p| && a == p[..|a|]
  }

  lemma ClashesAre(files: set<Path>, dirs: set<Path>, p: Path)
    requires [] !in files
    ensures Clashes(files, dirs, p) <==> InTheWay(files, dirs, p)
  {
    forall a <- files ensures a in Parents(p) <==> a != [] && |a| < |p| && a == p[..|a|] {
      ParentsAreAbove(a, p);
    }
  }

  lemma {:induction false} StagingPasses(limits: Limits, files: set<Path>, dirs: set<Path>, batch: seq<Item>)
    requires [] !in files
    ensures StagingError(limits, files, dirs, batch).None? <==>
      && (forall i :: 0 <= i < |batch| ==> !InTheWay(files, dirs, batch[i].path))
      && (batch == [] || BytesOf(batch) <= limits.maxUploadBytes)
    decreases |batch|
  {
    if batch != [] {
      var last := |batch| - 1;
      var rest := batch[..last];
      StagingPasses(limits, files, dirs, rest);
      ClashesAre(files, dirs, batch[last].path);
      assert batch == rest + [batch[last]];
      assert forall i :: 0 <= i < last ==> batch[i] == rest[i];
    }
  }

  /** No two targets are alike, and none lies above another. */
  predicate Separate(batch: seq<Item>) {
    forall i, j :: 0 <= i < |batch| && 0 <= j < |batch| && i != j ==> !(batch[i].path <= batch[j].path)
  }

  lemma SeparateIs(batch: seq<Item>)
    requires forall i :: 0 <= i < |batch| ==> batch[i].path != []
    ensures NoOverlap(batch) <==> Separate(batch)
  {
    forall i, j | 0 <= i < |batch| && 0 <= j < |batch| && i != j
      ensures batch[i].path <= batch[j].path <==> batch[i].path == batch[j].path || Above(batch[i].path, batch[j].path)
    {
      if batch[i].path <= batch[j].path && |batch[i].path| == |batch[j].path| {
        assert batch[j].path[..|batch[i].path|] == batch[j].path;
      }
    }
  }

  /** A batch is accepted exactly when it is not empty, every name is accepted, no two
      targets are alike or one above the other, there are not too many, nothing existing
      is in the way, its bytes are within the upload limit, and the tree with it is
      within the quotas. */
  lemma AcceptedExactly(limits: Limits, files: Files, dirs: set<Path>, uploads: seq<Upload>)
    requires [] !in files
    ensures UploadError(limits, files, dirs, uploads).None? <==>
      && uploads != [] && Read(uploads).Ok?
      && var batch := Read(uploads).value;
         && Separate(batch) && |batch| <= limits.maxFiles
         && (forall i :: 0 <= i < |batch| ==> !InTheWay(files.Keys, dirs, batch[i].path))
         && BytesOf(batch) <= limits.maxUploadBytes
         && Total(Sizes(Stored(files, batch))) <= limits.maxBytes && |Stored(files, batch)| <= limits.maxFiles
  {
    if uploads != [] && Read(uploads).Ok? {
      ReadPaths(uploads);
      SeparateIs(Read(uploads).value);
      StagingPasses(limits, files.Keys, dirs, Read(uploads).value);
    }
  }

  lemma {:induction false} NoClash(limits: Limits, files: set<Path>, dirs: set<Path>, batch: seq<Item>, i: nat)
    requires StagingError(limits, files, dirs, batch).None? && i < |batch|
    ensures !Clashes(files, dirs, batch[i].path)
    decreases |batch|
  {
    if i < |batch| - 1 { NoClash(limits, files, dirs, batch[..|batch| - 1], i); }
  }

  /** The batch can be added: each file fits both the tree and the other files. */
  ghost predicate Fits(files: set<Path>, batch: seq<Item>) {
    && NoOverlap(batch)
    && forall i :: 0 <= i < |batch| ==> batch[i].path != [] && !Clashes(files, ParentsOf(files), batch[i].path)
  }

  /** No file or directory of the growing tree stands in the way of the next item. */
  lemma NextFits(files: set<Path>, batch: seq<Item>, i: nat)
    requires Tidy(files, ParentsOf(files)) && Fits(files, batch) && i < |batch|
    ensures var now := files + Paths(batch[..i]);
            !Clashes(now, ParentsOf(now), batch[i].path)
  {
    var now := files + Paths(batch[..i]);
    var p := batch[i].path;
    assert !Clashes(files, ParentsOf(files), p);
    forall q <- Paths(batch[..i]) ensures !Above(p, q) && !Above(q, p) {
      var k :| 0 <= k < i && batch[..i][k].path == q;
      assert batch[k].path == q;
    }
    forall q <- now ensures p !in Parents(q) {
      ParentsAreAbove(p, q);
      if q in files { assert Parents(q) <= ParentsOf(files); }
    }
    forall a <- Parents(p) ensures a !in now {
      ParentsAreAbove(a, p);
    }
  }

  lemma ParentsOfAdded(files: set<Path>, p: Path)
    ensures ParentsOf(files + {p}) == ParentsOf(files) + Parents(p)
  {
  }

  lemma AddKeepsTidy(files: set<Path>, p: Path)
    requires Tidy(files, ParentsOf(files)) && p != [] && !Clashes(files, ParentsOf(files), p)
    ensures Tidy(files + {p}, ParentsOf(files) + Parents(p))
  {
    ParentsOfAdded(files, p);
    forall a <- Parents(p) ensures a !in files + {p} {
      ParentsAreAbove(a, p);
    }
  }

  // ------------------------------------------------------------ pruning

  /** During the prune loop: what the files need, and the directories down to `parent`. */
  ghost predicate Pruning(files: set<Path>, dirs: set<Path>, parent: Path) {
    dirs == ParentsOf(files) + (set k | 1 <= k <= |parent| :: parent[..k])
  }

  lemma PruneOne(files: set<Path>, dirs: set<Path>, parent: Path)
    requires Pruning(files, dirs, parent) && parent != [] && IsEmptyDirectory(files, dirs, parent)
    ensures Pruning(files, dirs - {parent}, parent[..|parent| - 1])
    ensures parent in dirs
  {
    var above := parent[..|parent| - 1];
    forall f <- files ensures parent !in Parents(f) {
      ParentsAreAbove(parent, f);
      if Above(parent, f) { ChildTowards(files, parent, f); }
    }
    assert parent[..|parent|] == parent;
    assert forall k :: 1 <= k < |parent| ==> parent[..k] == above[..k];
  }

  lemma PruneEnds(files: set<Path>, dirs: set<Path>, parent: Path)
    requires Pruning(files, dirs, parent) && parent != [] && !IsEmptyDirectory(files, dirs, parent)
    ensures dirs == ParentsOf(files)
  {
    var c :| c in files + dirs && ChildOf(c, parent);
    assert forall k :: 1 <= k <= |parent| ==> parent[..k] != c;
    var f :| f in files && (f == c || c in Parents(f));
    ParentsAreAbove(c, f);
    forall k | 1 <= k <= |parent| ensures parent[..k] in ParentsOf(files) {
      assert f[..k] == parent[..k];
      assert f[..k] in Parents(f);
    }
  }

  lemma PruneBegins(files: set<Path>, p: Path)
    requires p in files
    ensures Pruning(files - {p}, ParentsOf(files), p[..|p| - if p == [] then 0 else 1])
  {
    var parent := p[..|p| - if p == [] then 0 else 1];
    ParentsOfAdded(files - {p}, p);
    assert files - {p} + {p} == files;
    assert forall k :: 1 <= k < |p| ==> parent[..k] == p[..k];
  }

  lemma RemoveKeepsTidy(files: set<Path>, p: Path)
    requires Tidy(files, ParentsOf(files))
    ensures Tidy(files - {p}, ParentsOf(files - {p}))
  {
    assert ParentsOf(files - {p}) <= ParentsOf(files);
  }

  lemma RemoveKeepsQuota(limits: Limits, files: Files, p: Path)
    requires WithinQuota(limits, files)
    ensures WithinQuota(limits, files - {p})
  {
    if p in files {
      TotalWithout(Sizes(files), p);
      assert Sizes(files) - {p} == Sizes(files - {p});
      assert (files - {p}).Keys == files.Keys - {p};
    } else {
      assert files - {p} == files;
    }
  }

  // ------------------------------------------------------------ the store

  class WorkspaceStore {
    const limits: Limits
    var files: Files
    var dirs: set<Path>

    ghost predicate Valid()
      reads this
    {
      Tidy(files.Keys, dirs) && WithinQuota(limits, files)
    }

    constructor (limits: Limits)
      ensures Valid() && this.limits == limits && files == map[]
    {
      this.limits, files, dirs := limits, map[], {};
    }

    /** Staging leaves the tree alone: it checks each item and collects the sizes the
        tree would have. */
    method Stage(batch: seq<Item>) returns (r: Result<map<Path, nat>, WorkspaceError>)
      ensures match StagingError(limits, files.Keys, dirs, batch)
              case Some(e) => r == Err(e)
              case None => r == Ok(Sizes(Stored(files, batch)))
    {
      var existing := Sizes(files);
      var total := 0;
      assert batch[..|batch|] == batch;
      for i := 0 to |batch|
        invariant StagingError(limits, files.Keys, dirs, batch[..i]).None?
        invariant total == BytesOf(batch[..i])
        invariant existing == Sizes(Stored(files, batch[..i]))
      {
        assert batch[..i + 1][..i] == batch[..i];
        var item := batch[i];
        if Clashes(files.Keys, dirs, item.path) {
          StagingStops(limits, files.Keys, dirs, batch, i + 1);
          return Err(Conflict);
        }
        total := total + |item.content|;
        if total > limits.maxUploadBytes {
          StagingStops(limits, files.Keys, dirs, batch, i + 1);
          return Err(UploadTooLarge);
        }
        existing := existing[item.path := |item.content|];
      }
      return Ok(existing);
    }

    /** `mkdir` with parents, then `replace`. `false` is the exception either raises when
        a file or a directory stands in the way. */
    method Place(item: Item) returns (ok: bool)
      modifies this
      ensures ok == !Clashes(old(files.Keys), old(dirs), item.path)
      ensures ok ==> files == old(files)[item.path := item.content] && dirs == old(dirs) + Parents(item.path)
    {
      for k := 1 to if item.path == [] then 1 else |item.path|
        invariant files == old(files)
        invariant dirs == old(dirs) + set j | 1 <= j < k :: item.path[..j]
        invariant forall j :: 1 <= j < k ==> item.path[..j] !in files
      {
        if item.path[..k] in files {
          assert item.path[..k] in Parents(item.path);
          return false;
        }
        dirs := dirs + {item.path[..k]};
      }
      assert forall j :: 1 <= j < |item.path| ==> item.path[..j] != item.path;
      if item.path in dirs {
        return false;
      }
      files := files[item.path := item.content];
      return true;
    }

    /** Either the whole batch is stored and the tree is still tidy and within quota,
        or nothing has changed. */
    method UploadBatch(uploads: seq<Upload>) returns (r: Result<nat, WorkspaceError>)
      requires Valid()
      modifies this
      ensures Valid()
      ensures r.Err? <==> UploadError(limits, old(files), old(dirs), uploads).Some?
      ensures r.Err? ==> Some(r.error) == UploadError(limits, old(files), old(dirs), uploads)
                         && files == old(files) && dirs == old(dirs)
      ensures r.Ok? ==> files == Stored(old(files), Read(uploads).value) && r.value == Total(Sizes(files))
    {
      if uploads == [] {
        return Err(NoFiles);
      }
      var batch := [];
      match Read(uploads) {
        case Err(e) => return Err(e);
        case Ok(items) => batch := items;
      }
      if !NoOverlap(batch) {
        return Err(Overlap);
      }
      if |batch| > limits.maxFiles {
        return Err(TooManyFiles);
      }
      var staged := Stage(batch);
      if staged.Err? {
        return Err(staged.error);
      }
      var total := SumSizes(staged.value);
      assert staged.value.Keys == Stored(files, batch).Keys;
      if total > limits.maxBytes || |staged.value| > limits.maxFiles {
        return Err(QuotaExceeded);
      }
      BatchFits(limits, files, dirs, uploads);
      Commit(batch);
      return Ok(total);
    }

    /** The commit loop: no item can find its place taken. */
    method Commit(batch: seq<Item>)
      requires Tidy(files.Keys, dirs) && Fits(files.Keys, batch)
      modifies this
      ensures files == Stored(old(files), batch) && Tidy(files.Keys, dirs)
    {
      ghost var start := files.Keys;
      assert batch[..|batch|] == batch;
      for i := 0 to |batch|
        invariant files == Stored(old(files), batch[..i])
        invariant Tidy(files.Keys, dirs)
      {
        assert batch[..i + 1][..i] == batch[..i];
        StoredKeys(old(files), batch[..i]);
        NextFits(start, batch, i);
        AddKeepsTidy(files.Keys, batch[i].path);
        var ok := Place(batch[i]);
        assert ok;
        assert files.Keys == old(files.Keys) + Paths(batch[..i]) + {batch[i].path};
      }
    }

    /** Removes one file and every directory that this leaves empty; the root stays. */
    method DeleteFile(name: string) returns (r: Result<(), WorkspaceError>)
      requires Valid()
      modifies this
      ensures Valid()
      ensures r.Err? <==> DeleteError(old(files), old(dirs), name).Some?
      ensures r.Err? ==> Some(r.error) == DeleteError(old(files), old(dirs), name)
                         && files == old(files) && dirs == old(dirs)
      ensures r.Ok? ==> files == old(files) - {RelativePath(name).value}
    {
      var target := [];
      match RelativePath(name) {
        case Err(e) => return Err(e);
        case Ok(p) => target := p;
      }
      if target !in files && target !in dirs {
        return Err(NotFound);
      }
      if target !in files {
        return Err(NotAFile);
      }
      ghost var left := files.Keys - {target};
      PruneBegins(files.Keys, target);
      RemoveKeepsTidy(files.Keys, target);
      RemoveKeepsQuota(limits, files, target);
      files := files - {target};
      assert files.Keys == left;
      var parent := target[..|target| - 1];
      while parent != []
        invariant files == old(files) - {target} && files.Keys == left
        invariant Pruning(left, dirs, parent)
        decreases |parent|
      {
        if !IsEmptyDirectory(files.Keys, dirs, parent) {
          PruneEnds(left, dirs, parent);
          break;
        }
        PruneOne(left, dirs, parent);
        dirs := dirs - {parent};
        parent := parent[..|parent| - 1];
      }
      return Ok(());
    }
  }

  lemma {:induction false} StagingStops(limits: Limits, files: set<Path>, dirs: set<Path>, batch: seq<Item>, i: nat)
    requires i <= |batch| && StagingError(limits, files, dirs, batch[..i]).Some?
    ensures StagingError(limits, files, dirs, batch) == StagingError(limits, files, dirs, batch[..i])
    decreases |batch|
  {
    if i == |batch| {
      assert batch[..i] == batch;
    } else {
      assert batch[..|batch| - 1][..i] == batch[..i];
      StagingStops(limits, files, dirs, batch[..|batch| - 1], i);
    }
  }

  lemma BatchFits(limits: Limits, files: Files, dirs: set<Path>, uploads: seq<Upload>)
    requires Tidy(files.Keys, dirs) && UploadError(limits, files, dirs, uploads).None?
    ensures Fits(files.Keys, Read(uploads).value)
  {
    var batch := Read(uploads).value;
    ReadPaths(uploads);
    forall i | 0 <= i < |batch| ensures batch[i].path != [] && !Clashes(files.Keys, ParentsOf(files.Keys), batch[i].path) {
      NoClash(limits, files.Keys, dirs, batch, i);
    }
  }

  datatype Call = UploadCall(uploads: seq<Upload>) | DeleteCall(name: string)

  /** Over every sequence of calls, successful or not, the quotas hold and no
      directory below the root is empty. */
  method Serve(store: WorkspaceStore, calls: seq<Call>)
    requires store.Valid()
    modifies store
    ensures store.Valid() && WithinQuota(store.limits, store.files)
    ensures forall d <- store.dirs :: !IsEmptyDirectory(store.files.Keys, store.dirs, d)
  {
    for i := 0 to |calls|
      invariant store.Valid()
    {
      match calls[i] {
        case UploadCall(uploads) => var _ := store.UploadBatch(uploads);
        case DeleteCall(name) => var _ := store.DeleteFile(name);
      }
    }
    forall d <- store.dirs ensures !IsEmptyDirectory(store.files.Keys, store.dirs, d) {
      NoEmptyDirectory(store.files.Keys, store.dirs, d);
    }
  }
}
