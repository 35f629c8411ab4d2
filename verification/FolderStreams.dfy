/** What is on disk after any stream was accepted, whoever sent it. */
module FolderStreams {
  import opened Wrappers
  import opened Filenames
  import opened FolderPaths
  import opened FolderExtract

  /** The owner, the group or others may execute it. */
  predicate MayRun(mode: bv12) { (mode >> 6) & 1 == 1 || (mode >> 3) & 1 == 1 || mode & 1 == 1 }

  lemma MayRunMeans(mode: bv12)
    ensures (mode & 0x049 != 0) == MayRun(mode)
  {
  }

  /** The path of an entry that was read whole. */
  function RelOf(pf: Platform, next: Next): Option<Path> {
    if next.Entry? && EntryPath(pf, next.hdr.name).Ok? then Some(EntryPath(pf, next.hdr.name).value) else None
  }

  /** What becomes of an entry with a valid path. */
  function Taken(l: Limits, x: X, rel: Path, next: Next): Result<X, Error>
    requires next.Entry?
  {
    if rel == [] then Ok(x)
    else
      match next.hdr.kind
      case Directory => MakeAll(l, x, rel, next.refused)
      case Regular => WriteEntry(l, x, rel, next)
      case OtherType => Err(NotFileOrFolder)
  }

  lemma TakenAs(pf: Platform, l: Limits, x: X, next: Next)
    ensures var rel := RelOf(pf, next);
            if rel.None? then ExtractOne(pf, l, x, next).Err?
            else ExtractOne(pf, l, x, next) == if next.hdr.sparse then Err(SparseFile) else Taken(l, x, rel.value, next)
  {
  }

  /** p is there as a folder, or as a file with this content. */
  ghost predicate Holds(l: Limits, x: X, p: Path, node: Node) {
    && p in x.created && x.created[p] == node.Folder?
    && FoldPath(l.fold, p) in x.disk && x.disk[FoldPath(l.fold, p)] == node
  }

  /** The entry is not sparse, it is a folder or a file, and it is there as what it is: a file with all of its bytes, and
      executable if the header says so. */
  ghost predicate Carried(pf: Platform, l: Limits, x: X, next: Next) {
    && RelOf(pf, next).Some? && !next.hdr.sparse
    && var p := RelOf(pf, next).value;
       p == [] ||
       match next.hdr.kind
       case Directory => Holds(l, x, p, Folder)
       case Regular => |next.body| == next.hdr.size && Holds(l, x, p, File(next.body, MayRun(next.hdr.mode)))
       case OtherType => false
  }

  /** Nothing that is there changes or goes. */
  ghost predicate Extends(x: X, y: X) {
    && (forall p | p in x.created :: p in y.created && y.created[p] == x.created[p])
    && (forall d | d in x.disk :: d in y.disk && y.disk[d] == x.disk[d])
  }

  lemma MakeOneExtends(l: Limits, x: X, p: Path, refused: bool)
    requires MakeOne(l, x, p, refused).Ok?
    ensures Extends(x, MakeOne(l, x, p, refused).value)
    ensures p !in x.created ==> Holds(l, MakeOne(l, x, p, refused).value, p, Folder)
  {
  }

  lemma {:induction false} MakeFromExtends(l: Limits, x: X, rel: Path, n: nat, refused: bool)
    requires n <= |rel| && MakeFrom(l, x, rel, n, refused).Ok?
    ensures Extends(x, MakeFrom(l, x, rel, n, refused).value)
    decreases |rel| - n
  {
    if n < |rel| {
      MakeOneExtends(l, x, rel[..n + 1], refused);
      MakeFromExtends(l, MakeOne(l, x, rel[..n + 1], refused).value, rel, n + 1, refused);
    }
  }

  lemma CreateExtends(l: Limits, x: X, rel: Path, entry: Next)
    requires entry.Entry? && CreateFile(l, x, rel, entry).Ok?
    ensures Extends(x, CreateFile(l, x, rel, entry).value)
    ensures |entry.body| >= entry.hdr.size
    ensures Holds(l, CreateFile(l, x, rel, entry).value, rel, File(entry.body, MayRun(entry.hdr.mode)))
  {
    MayRunMeans(entry.hdr.mode);
  }

  lemma WriteExtends(l: Limits, x: X, rel: Path, entry: Next)
    requires entry.Entry? && rel != [] && WriteEntry(l, x, rel, entry).Ok?
    ensures Extends(x, WriteEntry(l, x, rel, entry).value)
    ensures |entry.body| >= entry.hdr.size
    ensures Holds(l, WriteEntry(l, x, rel, entry).value, rel, File(entry.body, MayRun(entry.hdr.mode)))
  {
    if |rel| == 1 {
      CreateExtends(l, x, rel, entry);
    } else {
      var y := MakeAll(l, x, rel[..|rel| - 1], entry.refused).value;
      MakeFromExtends(l, x, rel[..|rel| - 1], 0, entry.refused);
      CreateExtends(l, y, rel, entry);
    }
  }

  /** A folder that was made is on disk as one. */
  lemma FolderHolds(l: Limits, x: X, p: Path)
    requires Bijective(l.fold, x) && Folders(x, p)
    ensures Holds(l, x, p, Folder)
  {
  }

  lemma OneCarried(pf: Platform, l: Limits, x: X, next: Next)
    requires Inv(l, x) && ExtractOne(pf, l, x, next).Ok? && (next.Entry? ==> |next.body| <= next.hdr.size)
    ensures Extends(x, ExtractOne(pf, l, x, next).value)
    ensures Carried(pf, l, ExtractOne(pf, l, x, next).value, next)
  {
    var rel, y := EntryPath(pf, next.hdr.name).value, ExtractOne(pf, l, x, next).value;
    if rel != [] {
      match next.hdr.kind
      case Directory =>
        MakeFromExtends(l, x, rel, 0, next.refused);
        MakeFromKeepsInv(l, x, rel, 0, next.refused);
        assert rel[..|rel|] == rel;
        FolderHolds(l, y, rel);
      case Regular => WriteExtends(l, x, rel, next);
      case OtherType =>
    }
  }

  lemma StillCarried(pf: Platform, l: Limits, x: X, y: X, next: Next)
    requires Carried(pf, l, x, next) && Extends(x, y)
    ensures Carried(pf, l, y, next)
  {
  }

  /** p is an entry's path or lies above one. */
  ghost predicate Named(pf: Platform, entries: seq<Next>, p: Path) {
    exists i :: 0 <= i < |entries| && RelOf(pf, entries[i]).Some? && p <= RelOf(pf, entries[i]).value
  }

  lemma OneMoreCarried(pf: Platform, l: Limits, entries: seq<Next>, x: X)
    requires entries != [] && Inv(l, x)
    requires forall i | 0 <= i < |entries| - 1 :: Carried(pf, l, x, entries[i])
    requires var e := entries[|entries| - 1]; ExtractOne(pf, l, x, e).Ok? && (e.Entry? ==> |e.body| <= e.hdr.size)
    ensures var y := ExtractOne(pf, l, x, entries[|entries| - 1]).value;
            forall i | 0 <= i < |entries| :: Carried(pf, l, y, entries[i])
  {
    var n := |entries| - 1;
    var y := ExtractOne(pf, l, x, entries[n]).value;
    OneCarried(pf, l, x, entries[n]);
    forall i | 0 <= i < n ensures Carried(pf, l, y, entries[i]) { StillCarried(pf, l, x, y, entries[i]); }
  }

  lemma OneMoreNamed(pf: Platform, l: Limits, entries: seq<Next>, x: X)
    requires entries != [] && ExtractOne(pf, l, x, entries[|entries| - 1]).Ok?
    requires forall p | p in x.created :: Named(pf, entries[..|entries| - 1], p)
    ensures forall p | p in ExtractOne(pf, l, x, entries[|entries| - 1]).value.created :: Named(pf, entries, p)
  {
    var n := |entries| - 1;
    ExtractOneAddsPrefixes(pf, l, x, entries[n]);
    forall p | p in ExtractOne(pf, l, x, entries[n]).value.created ensures Named(pf, entries, p) {
      NamedByMore(pf, entries, p);
    }
  }

  /** After an accepted stream: every entry is there as what it is, whichever came later; and nothing is there but what the
      entries name and the folders above it. */
  lemma {:induction false} AcceptedStreamIsThere(pf: Platform, l: Limits, entries: seq<Next>)
    requires Readable(Stream(entries, 0)) && ExtractAll(pf, l, entries).Ok?
    ensures var x := ExtractAll(pf, l, entries).value;
            && (forall i | 0 <= i < |entries| :: Carried(pf, l, x, entries[i]))
            && (forall p | p in x.created :: Named(pf, entries, p))
  {
    if entries != [] {
      var n := |entries| - 1;
      var x := ExtractAll(pf, l, entries[..n]).value;
      ReadablePrefix(entries);
      AcceptedStreamIsThere(pf, l, entries[..n]);
      ExtractAllKeepsInv(pf, l, entries[..n]);
      assert forall i | 0 <= i < n :: entries[i] == entries[..n][i];
      OneMoreCarried(pf, l, entries, x);
      OneMoreNamed(pf, l, entries, x);
    }
  }

  lemma ReadablePrefix(entries: seq<Next>)
    requires entries != [] && Readable(Stream(entries, 0))
    ensures var n := |entries| - 1;
            Readable(Stream(entries[..n], 0)) && (entries[n].Entry? ==> |entries[n].body| <= entries[n].hdr.size)
  {
    var n := |entries| - 1;
    assert forall i | 0 <= i < n :: entries[..n][i] == entries[i];
    assert Stream(entries, 0).entries[n] == entries[n];
  }

  lemma NamedByMore(pf: Platform, entries: seq<Next>, p: Path)
    requires entries != []
    ensures Named(pf, entries[..|entries| - 1], p) ==> Named(pf, entries, p)
  {
    var n := |entries| - 1;
    if Named(pf, entries[..n], p) {
      var i :| 0 <= i < n && RelOf(pf, entries[..n][i]).Some? && p <= RelOf(pf, entries[..n][i]).value;
      assert entries[..n][i] == entries[i];
    }
  }

  // ---- the counts ----

  function Regulars(pf: Platform, entries: seq<Next>): seq<Next> {
    if entries == [] then []
    else
      var e := entries[|entries| - 1];
      Regulars(pf, entries[..|entries| - 1])
      + if RelOf(pf, e).Some? && RelOf(pf, e).value != [] && e.hdr.kind.Regular? then [e] else []
  }

  function BytesIn(entries: seq<Next>): nat {
    if entries == [] then 0
    else
      var e := entries[|entries| - 1];
      BytesIn(entries[..|entries| - 1]) + if e.Entry? then |e.body| else 0
  }

  lemma {:induction false} MakeFromCounts(l: Limits, x: X, rel: Path, n: nat, refused: bool)
    requires n <= |rel| && MakeFrom(l, x, rel, n, refused).Ok?
    ensures MakeFrom(l, x, rel, n, refused).value.files == x.files
    ensures MakeFrom(l, x, rel, n, refused).value.written == x.written
    decreases |rel| - n
  {
    if n < |rel| {
      MakeFromCounts(l, MakeOne(l, x, rel[..n + 1], refused).value, rel, n + 1, refused);
    }
  }

  lemma OneCounts(pf: Platform, l: Limits, x: X, next: Next)
    requires ExtractOne(pf, l, x, next).Ok?
    ensures var y := ExtractOne(pf, l, x, next).value;
            if RelOf(pf, next).Some? && RelOf(pf, next).value != [] && next.hdr.kind.Regular?
            then y.files == x.files + 1 && y.written == x.written + |next.body|
            else y.files == x.files && y.written == x.written
  {
    TakenAs(pf, l, x, next);
    TakenCounts(l, x, RelOf(pf, next).value, next);
  }

  lemma TakenCounts(l: Limits, x: X, rel: Path, next: Next)
    requires next.Entry? && Taken(l, x, rel, next).Ok?
    ensures var y := Taken(l, x, rel, next).value;
            if rel != [] && next.hdr.kind.Regular?
            then y.files == x.files + 1 && y.written == x.written + |next.body|
            else y.files == x.files && y.written == x.written
  {
    if rel != [] {
      match next.hdr.kind
      case Directory => MakeFromCounts(l, x, rel, 0, next.refused);
      case Regular => if |rel| > 1 { MakeFromCounts(l, x, rel[..|rel| - 1], 0, next.refused); }
      case OtherType =>
    }
  }

  /** The counts that are reported are the number of files and of their bytes. */
  lemma {:induction false} AcceptedStreamIsCounted(pf: Platform, l: Limits, entries: seq<Next>)
    requires ExtractAll(pf, l, entries).Ok?
    ensures var x := ExtractAll(pf, l, entries).value;
            x.files == |Regulars(pf, entries)| && x.written == BytesIn(Regulars(pf, entries))
  {
    if entries != [] {
      var n := |entries| - 1;
      AcceptedStreamIsCounted(pf, l, entries[..n]);
      OneCounts(pf, l, ExtractAll(pf, l, entries[..n]).value, entries[n]);
      var before := Regulars(pf, entries[..n]);
      assert (before + [entries[n]])[..|before|] == before && before + [] == before;
    }
  }
}
