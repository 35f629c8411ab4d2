/** Extracting an entry stream into a folder, on a file system that may treat different names as the same. */
module FolderExtract {
  import opened Wrappers
  import opened Filenames
  import opened FolderPaths

  datatype TypeFlag = Regular | Directory | OtherType

  /** `mode` holds the permission bits. */
  datatype Header = Header(name: string, kind: TypeFlag, mode: bv12, size: nat, sparse: bool)

  /** What reading the stream yields next: an entry with as much of its body as could be read, or an error. `refused` says
      that the file system fails to create something for the entry. */
  datatype Next = Entry(hdr: Header, body: string, refused: bool) | Unreadable | Broken

  /** The entries that reading no further than the announced length yields, up to the end of the archive, and the bytes that
      were there in all. */
  datatype Stream = Stream(entries: seq<Next>, bytes: nat)

  /** A reader yields no more of a body than its header announces. */
  ghost predicate Readable(stream: Stream) {
    forall i | 0 <= i < |stream.entries| && stream.entries[i].Entry? ::
      |stream.entries[i].body| <= stream.entries[i].hdr.size
  }

  datatype Node = Folder | File(data: string, exec: bool)

  /** `fold` maps a name to the name by which the file system knows it. */
  type Fold = string -> string

  function FoldPath(fold: Fold, p: Path): (q: Path)
    ensures |q| == |p|
  {
    seq(|p|, i requires 0 <= i < |p| => fold(p[i]))
  }

  /** The extractor: what is on disk below the folder, which paths it created and whether each is a folder, and its budgets. */
  datatype X = X(disk: map<Path, Node>, created: map<Path, bool>, written: nat, folders: nat, files: nat)

  const Nothing := X(map[], map[], 0, 0, 0)

  datatype Limits = Limits(fold: Fold, limit: nat, maxDirs: nat)

  function FolderBudget(size: nat): nat {
    (if size / 512 < 0x4000_0000 then size / 512 else 0x4000_0000) + MAX_ENTRY_DEPTH
  }

  /** One prefix of a path becomes a folder, unless it already is one that this extractor made. */
  function MakeOne(l: Limits, x: X, p: Path, refused: bool): Result<X, Error> {
    if p in x.created then if x.created[p] then Ok(x) else Err(BothKinds)
    else if FoldPath(l.fold, p) in x.disk then Err(Folded)
    else if x.folders >= l.maxDirs then Err(TooManyFolders)
    else if refused then Err(Refused)
    else Ok(x.(disk := x.disk[FoldPath(l.fold, p) := Folder], created := x.created[p := true], folders := x.folders + 1))
  }

  /** The prefixes of rel that are longer than n components, shortest first. */
  function MakeFrom(l: Limits, x: X, rel: Path, n: nat, refused: bool): Result<X, Error>
    decreases |rel| - n
  {
    if n >= |rel| then Ok(x)
    else
      match MakeOne(l, x, rel[..n + 1], refused)
      case Err(e) => Err(e)
      case Ok(x') => MakeFrom(l, x', rel, n + 1, refused)
  }

  function MakeAll(l: Limits, x: X, rel: Path, refused: bool): Result<X, Error> { MakeFrom(l, x, rel, 0, refused) }

  function CreateFile(l: Limits, x: X, rel: Path, entry: Next): Result<X, Error>
    requires entry.Entry?
  {
    if rel in x.created then Err(if x.created[rel] then BothKinds else Repeated)
    else if FoldPath(l.fold, rel) in x.disk then Err(Repeated)
    else if entry.refused then Err(Refused)
    else if |entry.body| < entry.hdr.size then Err(ReadFailed)
    else
      Ok(x.(disk := x.disk[FoldPath(l.fold, rel) := File(entry.body, entry.hdr.mode & 0x049 != 0)],
            created := x.created[rel := false], written := x.written + |entry.body|, files := x.files + 1))
  }

  function WriteEntry(l: Limits, x: X, rel: Path, entry: Next): Result<X, Error>
    requires entry.Entry? && rel != []
  {
    if entry.hdr.size > l.limit - x.written then Err(TooLarge)
    else if |rel| == 1 then CreateFile(l, x, rel, entry)
    else
      match MakeAll(l, x, rel[..|rel| - 1], entry.refused)
      case Err(e) => Err(e)
      case Ok(x') => CreateFile(l, x', rel, entry)
  }

  function ExtractOne(pf: Platform, l: Limits, x: X, next: Next): Result<X, Error> {
    match next
    case Unreadable => Err(BadHeader)
    case Broken => Err(ReadFailed)
    case Entry(hdr, _, refused) =>
      if hdr.sparse then Err(SparseFile)
      else
        match EntryPath(pf, hdr.name)
        case Err(e) => Err(e)
        case Ok(rel) =>
          if rel == [] then Ok(x)
          else
            match hdr.kind
            case Directory => MakeAll(l, x, rel, refused)
            case Regular => WriteEntry(l, x, rel, next)
            case OtherType => Err(NotFileOrFolder)
  }

  function ExtractAll(pf: Platform, l: Limits, entries: seq<Next>): Result<X, Error> {
    if entries == [] then Ok(Nothing)
    else
      match ExtractAll(pf, l, entries[..|entries| - 1])
      case Err(e) => Err(e)
      case Ok(x) => ExtractOne(pf, l, x, entries[|entries| - 1])
  }

  /** The outcome of extracting a stream whose length was announced as size. Bytes beyond that are never read. */
  function Extracted(pf: Platform, fold: Fold, stream: Stream, size: nat): Result<X, Error> {
    match ExtractAll(pf, Limits(fold, size, FolderBudget(size)), stream.entries)
    case Err(e) => Err(e)
    case Ok(x) => if stream.bytes < size then Err(Incomplete) else Ok(x)
  }

  // ---- what every step keeps ----

  ghost predicate Folders(x: X, p: Path) { p in x.created && x.created[p] }

  /** Every path that was created lies in folders that were created, all the way up. */
  ghost predicate PrefixClosed(x: X) {
    forall p, j | p in x.created && 0 < j < |p| :: Folders(x, p[..j])
  }

  /** Paths that were created and nodes on disk correspond one to one, and agree on what is a folder. */
  ghost predicate Bijective(fold: Fold, x: X) {
    && (forall p | p in x.created :: FoldPath(fold, p) in x.disk && (x.created[p] <==> x.disk[FoldPath(fold, p)].Folder?))
    && (forall p, q | p in x.created && q in x.created && FoldPath(fold, p) == FoldPath(fold, q) :: p == q)
    && (forall d | d in x.disk :: exists p :: p in x.created && FoldPath(fold, p) == d)
  }

  /** The paths created as folders, or those created as files. */
  ghost function PathsOf(created: map<Path, bool>, isDir: bool): set<Path> {
    set p | p in created && created[p] == isDir
  }

  lemma OneMorePath(x: X, x': X, p: Path, isDir: bool)
    requires Tallied(x) && p !in x.created && x'.created == x.created[p := isDir]
    requires x'.folders == x.folders + (if isDir then 1 else 0) && x'.files == x.files + (if isDir then 0 else 1)
    ensures Tallied(x')
  {
    PathsAdd(x.created, p, isDir);
  }

  lemma PathsAdd(created: map<Path, bool>, p: Path, isDir: bool)
    requires p !in created
    ensures |PathsOf(created[p := isDir], isDir)| == |PathsOf(created, isDir)| + 1
    ensures PathsOf(created[p := isDir], !isDir) == PathsOf(created, !isDir)
  {
    assert PathsOf(created[p := isDir], isDir) == PathsOf(created, isDir) + {p};
  }

  ghost predicate Inv(l: Limits, x: X) {
    && PrefixClosed(x) && Bijective(l.fold, x)
    && [] !in x.created
    && Tallied(x) && x.folders <= l.maxDirs && x.written <= l.limit
  }

  ghost predicate Tallied(x: X) {
    x.folders == |PathsOf(x.created, true)| && x.files == |PathsOf(x.created, false)|
  }

  ghost predicate ParentsMade(x: X, p: Path) {
    p != [] && forall j | 0 < j < |p| :: Folders(x, p[..j])
  }

  lemma MakeOneKeepsInv(l: Limits, x: X, p: Path, refused: bool)
    requires Inv(l, x) && ParentsMade(x, p) && MakeOne(l, x, p, refused).Ok?
    ensures Inv(l, MakeOne(l, x, p, refused).value)
    ensures var x' := MakeOne(l, x, p, refused).value;
            Folders(x', p) && x'.written == x.written && forall q | Folders(x, q) :: Folders(x', q)
  {
    if p !in x.created {
      FolderKeepsInv(l, x, MakeOne(l, x, p, refused).value, p);
    }
  }

  lemma FolderKeepsInv(l: Limits, x: X, x': X, p: Path)
    requires Inv(l, x) && ParentsMade(x, p) && p !in x.created && FoldPath(l.fold, p) !in x.disk && x.folders < l.maxDirs
    requires x' == x.(disk := x.disk[FoldPath(l.fold, p) := Folder], created := x.created[p := true],
                      folders := x.folders + 1)
    ensures Inv(l, x')
  {
    OneMorePath(x, x', p, true);
    AddKeepsShape(l.fold, x, x', p, Folder);
  }

  /** A node that is new on disk, below folders that were created, keeps the correspondence. */
  lemma AddKeepsShape(fold: Fold, x: X, x': X, p: Path, node: Node)
    requires PrefixClosed(x) && Bijective(fold, x) && ParentsMade(x, p)
    requires p !in x.created && FoldPath(fold, p) !in x.disk
    requires x'.disk == x.disk[FoldPath(fold, p) := node] && x'.created == x.created[p := node.Folder?]
    ensures PrefixClosed(x') && Bijective(fold, x')
  {
    forall q, j | q in x'.created && 0 < j < |q| ensures Folders(x', q[..j]) {
      assert Folders(x, q[..j]);
    }
    forall d | d in x'.disk ensures exists q :: q in x'.created && FoldPath(fold, q) == d {
      if d in x.disk {
        var q :| q in x.created && FoldPath(fold, q) == d;
        assert q in x'.created;
      } else {
        assert p in x'.created;
      }
    }
  }

  lemma ParentsOfPrefix(x: X, rel: Path, n: nat)
    requires n < |rel| && forall j | 0 < j <= n :: Folders(x, rel[..j])
    ensures ParentsMade(x, rel[..n + 1])
  {
    var p := rel[..n + 1];
    forall j | 0 < j < |p| ensures Folders(x, p[..j]) {
      assert p[..j] == rel[..j];
    }
  }

  lemma {:induction false} MakeFromKeepsInv(l: Limits, x: X, rel: Path, n: nat, refused: bool)
    requires Inv(l, x) && n <= |rel| && MakeFrom(l, x, rel, n, refused).Ok?
    requires forall j | 0 < j <= n :: Folders(x, rel[..j])
    ensures var x' := MakeFrom(l, x, rel, n, refused).value;
            Inv(l, x') && x'.written == x.written && forall j | 0 < j <= |rel| :: Folders(x', rel[..j])
    decreases |rel| - n
  {
    if n < |rel| {
      OnePrefixKeepsInv(l, x, rel, n, refused);
      MakeFromKeepsInv(l, MakeOne(l, x, rel[..n + 1], refused).value, rel, n + 1, refused);
    }
  }

  lemma OnePrefixKeepsInv(l: Limits, x: X, rel: Path, n: nat, refused: bool)
    requires Inv(l, x) && n < |rel| && MakeOne(l, x, rel[..n + 1], refused).Ok?
    requires forall j | 0 < j <= n :: Folders(x, rel[..j])
    ensures var x' := MakeOne(l, x, rel[..n + 1], refused).value;
            Inv(l, x') && x'.written == x.written && forall j | 0 < j <= n + 1 :: Folders(x', rel[..j])
  {
    ParentsOfPrefix(x, rel, n);
    MakeOneKeepsInv(l, x, rel[..n + 1], refused);
  }

  lemma CreateFileKeepsInv(l: Limits, x: X, rel: Path, entry: Next)
    requires Inv(l, x) && ParentsMade(x, rel)
    requires entry.Entry? && |entry.body| <= entry.hdr.size <= l.limit - x.written
    requires CreateFile(l, x, rel, entry).Ok?
    ensures Inv(l, CreateFile(l, x, rel, entry).value)
  {
    var x' := CreateFile(l, x, rel, entry).value;
    OneMorePath(x, x', rel, false);
    AddKeepsShape(l.fold, x, x', rel, x'.disk[FoldPath(l.fold, rel)]);
  }

  lemma WriteEntryKeepsInv(l: Limits, x: X, rel: Path, entry: Next)
    requires Inv(l, x) && rel != [] && entry.Entry? && |entry.body| <= entry.hdr.size
    requires WriteEntry(l, x, rel, entry).Ok?
    ensures Inv(l, WriteEntry(l, x, rel, entry).value)
  {
    if |rel| == 1 {
      CreateFileKeepsInv(l, x, rel, entry);
    } else {
      var parent := rel[..|rel| - 1];
      MakeFromKeepsInv(l, x, parent, 0, entry.refused);
      var x' := MakeAll(l, x, parent, entry.refused).value;
      forall j | 0 < j < |rel| ensures Folders(x', rel[..j]) {
        assert rel[..j] == parent[..j];
      }
      CreateFileKeepsInv(l, x', rel, entry);
    }
  }

  lemma ExtractOneKeepsInv(pf: Platform, l: Limits, x: X, next: Next)
    requires Inv(l, x) && (next.Entry? ==> |next.body| <= next.hdr.size)
    requires ExtractOne(pf, l, x, next).Ok?
    ensures Inv(l, ExtractOne(pf, l, x, next).value)
  {
    var rel := EntryPath(pf, next.hdr.name).value;
    if rel != [] {
      if next.hdr.kind.Directory? {
        MakeFromKeepsInv(l, x, rel, 0, next.refused);
      } else {
        WriteEntryKeepsInv(l, x, rel, next);
      }
    }
  }

  /** For any stream on any file system: the paths created are closed under parents and correspond one to one to what is
      on disk, so no two entries merged, and folders and bytes stay within their budgets. */
  lemma {:induction false} ExtractAllKeepsInv(pf: Platform, l: Limits, entries: seq<Next>)
    requires Readable(Stream(entries, 0)) && ExtractAll(pf, l, entries).Ok?
    ensures Inv(l, ExtractAll(pf, l, entries).value)
  {
    if entries != [] {
      var n := |entries| - 1;
      assert forall i | 0 <= i < n :: entries[..n][i] == entries[i];
      ExtractAllKeepsInv(pf, l, entries[..n]);
      assert entries[n].Entry? ==> |Stream(entries, 0).entries[n].body| <= entries[n].hdr.size;
      ExtractOneKeepsInv(pf, l, ExtractAll(pf, l, entries[..n]).value, entries[n]);
    } else {
      assert PathsOf(Nothing.created, true) == {} && PathsOf(Nothing.created, false) == {};
    }
  }

  // ---- every path that is created was accepted ----

  ghost predicate PathsValid(pf: Platform, x: X) {
    forall p | p in x.created :: AllValid(pf, p) && |p| <= MAX_ENTRY_DEPTH
  }

  lemma {:induction false} MakeFromAddsPrefixes(l: Limits, x: X, rel: Path, n: nat, refused: bool)
    requires n <= |rel| && MakeFrom(l, x, rel, n, refused).Ok?
    ensures forall p | p in MakeFrom(l, x, rel, n, refused).value.created :: p in x.created || p <= rel
    decreases |rel| - n
  {
    if n < |rel| {
      MakeFromAddsPrefixes(l, MakeOne(l, x, rel[..n + 1], refused).value, rel, n + 1, refused);
    }
  }

  lemma PrefixesValid(pf: Platform, rel: Path)
    requires AllValid(pf, rel)
    ensures forall p | p <= rel :: AllValid(pf, p)
  {
  }

  lemma PrefixOfParent(p: Path, rel: Path)
    requires rel != [] && p <= rel[..|rel| - 1]
    ensures p <= rel
  {
  }

  lemma WriteEntryAddsPrefixes(l: Limits, x: X, rel: Path, entry: Next)
    requires entry.Entry? && rel != [] && WriteEntry(l, x, rel, entry).Ok?
    ensures forall p | p in WriteEntry(l, x, rel, entry).value.created :: p in x.created || p <= rel
  {
    if |rel| > 1 {
      var parent := rel[..|rel| - 1];
      MakeFromAddsPrefixes(l, x, parent, 0, entry.refused);
      forall p | p in WriteEntry(l, x, rel, entry).value.created ensures p in x.created || p <= rel {
        if p <= parent { PrefixOfParent(p, rel); }
      }
    }
  }

  lemma ExtractOneAddsPrefixes(pf: Platform, l: Limits, x: X, next: Next)
    requires ExtractOne(pf, l, x, next).Ok?
    ensures next.Entry? && EntryPath(pf, next.hdr.name).Ok?
    ensures forall p | p in ExtractOne(pf, l, x, next).value.created ::
              p in x.created || p <= EntryPath(pf, next.hdr.name).value
  {
    var rel := EntryPath(pf, next.hdr.name).value;
    if rel != [] {
      if next.hdr.kind.Directory? {
        MakeFromAddsPrefixes(l, x, rel, 0, next.refused);
      } else {
        WriteEntryAddsPrefixes(l, x, rel, next);
      }
    }
  }

  /** For any stream: every component of a path on disk is a valid filename, and no path is too deep. */
  lemma {:induction false} ExtractAllPathsValid(pf: Platform, l: Limits, entries: seq<Next>)
    requires ExtractAll(pf, l, entries).Ok?
    ensures PathsValid(pf, ExtractAll(pf, l, entries).value)
  {
    if entries != [] {
      var n := |entries| - 1;
      ExtractAllPathsValid(pf, l, entries[..n]);
      ExtractOneAddsPrefixes(pf, l, ExtractAll(pf, l, entries[..n]).value, entries[n]);
      PrefixesValid(pf, EntryPath(pf, entries[n].hdr.name).value);
    }
  }

  /** A stream is accepted only when as much arrived as was announced, and then what it made is within the budgets that its
      announced length sets. */
  lemma ExtractedWithinBudgets(pf: Platform, fold: Fold, stream: Stream, size: nat)
    requires Readable(stream) && Extracted(pf, fold, stream, size).Ok?
    ensures stream.bytes >= size
    ensures var x := Extracted(pf, fold, stream, size).value;
            && PrefixClosed(x) && Bijective(fold, x) && PathsValid(pf, x)
            && |PathsOf(x.created, true)| == x.folders <= size / 512 + MAX_ENTRY_DEPTH
            && |PathsOf(x.created, false)| == x.files
            && x.written <= size
  {
    var l := Limits(fold, size, FolderBudget(size));
    ExtractAllKeepsInv(pf, l, stream.entries);
    ExtractAllPathsValid(pf, l, stream.entries);
  }
}
