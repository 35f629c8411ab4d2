/** The extractor as it runs: it scans slash paths byte by byte and updates its record of what it created. */
module FolderExtractor {
  import opened Wrappers
  import opened Filenames
  import opened FolderPaths
  import opened FolderExtract

  // ---- prefixes of a slash path ----

  lemma {:induction false} SplitAny(a: string, b: string)
    ensures Split(a + "/" + b) == Split(a) + Split(b)
  {
    var s := a + "/" + b;
    if a == "" {
      assert s[1..] == b;
    } else {
      assert s[0] == a[0] && s[1..] == a[1..] + "/" + b;
      SplitAny(a[1..], b);
      PushAppend(a[0], Split(a[1..]), Split(b));
    }
  }

  lemma {:induction false} SplitSnoc(a: string, c: char)
    requires c != '/'
    ensures |Split(a + [c])| == |Split(a)|
  {
    if a == "" {
      SplitPlain([c]);
    } else {
      assert (a + [c])[1..] == a[1..] + [c];
      SplitSnoc(a[1..], c);
    }
  }

  /** The number of components that are complete before the i-th byte of a path, or all of them after the end. */
  ghost function Done(rel: string, i: nat): nat
    requires i <= |rel| + 1
  {
    if i <= |rel| then |Split(rel[..i])| - 1 else |Split(rel)|
  }

  lemma PrefixAt(rel: string, i: nat)
    requires i <= |rel| && (i == |rel| || rel[i] == '/')
    ensures Done(rel, i) < |Split(rel)|
    ensures Split(rel[..i]) == Split(rel)[..Done(rel, i) + 1]
    ensures Done(rel, i + 1) == Done(rel, i) + 1
  {
    if i < |rel| {
      SlashAt(rel, i);
      PrefixOf(rel[..i], rel[i + 1..]);
    } else {
      assert rel[..i] == rel;
    }
  }

  lemma SlashAt(rel: string, i: nat)
    requires i < |rel| && rel[i] == '/'
    ensures rel[..i] + "/" + rel[i + 1..] == rel && rel[..i] + "/" == rel[..i + 1]
  {
  }

  lemma PrefixOf(a: string, b: string)
    ensures |Split(a)| < |Split(a + "/" + b)| && Split(a) == Split(a + "/" + b)[..|Split(a)|]
    ensures |Split(a + "/")| == |Split(a)| + 1
  {
    SplitAny(a, b);
    SplitAny(a, "");
    assert a + "/" + "" == a + "/";
  }

  lemma NoPrefixAt(rel: string, i: nat)
    requires i < |rel| && rel[i] != '/'
    ensures Done(rel, i + 1) == Done(rel, i)
  {
    assert rel[..i + 1] == rel[..i] + [rel[i]];
    SplitSnoc(rel[..i], rel[i]);
  }

  /** The position of the last slash, or -1. */
  function LastSlash(s: string): (i: int)
    ensures -1 <= i < |s|
  {
    if s == "" then -1 else if s[|s| - 1] == '/' then |s| - 1 else LastSlash(s[..|s| - 1])
  }

  lemma {:induction false} NoSlashAfter(s: string)
    ensures LastSlash(s) >= 0 ==> s[LastSlash(s)] == '/'
    ensures forall k | LastSlash(s) < k < |s| :: s[k] != '/'
  {
    if s != "" && s[|s| - 1] != '/' {
      NoSlashAfter(s[..|s| - 1]);
    }
  }

  lemma LastPart(a: string, b: string)
    requires '/' !in b
    ensures |Split(a + "/" + b)| == |Split(a)| + 1 && Split(a + "/" + b)[..|Split(a)|] == Split(a)
  {
    SplitAny(a, b);
    SplitPlain(b);
  }

  lemma ParentOf(rel: string)
    ensures LastSlash(rel) < 0 ==> |Split(rel)| == 1
    ensures LastSlash(rel) >= 0 ==>
              |Split(rel)| > 1 && Split(rel[..LastSlash(rel)]) == Split(rel)[..|Split(rel)| - 1]
  {
    var i := LastSlash(rel);
    NoSlashAfter(rel);
    if i < 0 {
      assert rel[0..] == rel;
      SplitPlain(rel);
    } else {
      SlashAt(rel, i);
      LastPart(rel[..i], rel[i + 1..]);
    }
  }

  lemma {:induction false} ErrorStays(pf: Platform, l: Limits, entries: seq<Next>, i: nat)
    requires i <= |entries| && ExtractAll(pf, l, entries[..i]).Err?
    ensures ExtractAll(pf, l, entries) == ExtractAll(pf, l, entries[..i])
  {
    var n := |entries| - 1;
    if i <= n {
      assert entries[..n][..i] == entries[..i];
      ErrorStays(pf, l, entries[..n], i);
    } else {
      assert entries[..i] == entries;
    }
  }

  /** One entry more; an error is final. */
  lemma ExtractsOn(pf: Platform, l: Limits, entries: seq<Next>, i: nat, x: X)
    requires i < |entries| && ExtractAll(pf, l, entries[..i]) == Ok(x)
    ensures ExtractAll(pf, l, entries[..i + 1]) == ExtractOne(pf, l, x, entries[i])
    ensures ExtractOne(pf, l, x, entries[i]).Err? ==> ExtractAll(pf, l, entries) == ExtractOne(pf, l, x, entries[i])
  {
    assert entries[..i + 1][..i] == entries[..i];
    if ExtractOne(pf, l, x, entries[i]).Err? {
      ErrorStays(pf, l, entries, i + 1);
    }
  }

  // ---- the extractor ----

  class Extractor {
    const pf: Platform
    const l: Limits
    var disk: map<Path, Node>
    var created: map<Path, bool>
    var written: nat
    var folders: nat
    var files: nat

    ghost function State(): X
      reads this
    {
      X(disk, created, written, folders, files)
    }

    /** The extractor is as r says, or reports r's error. */
    ghost predicate Did(r: Result<X, Error>, err: Option<Error>)
      reads this
    {
      match r
      case Ok(x) => err == None && State() == x
      case Err(e) => err == Some(e)
    }

    constructor (pf: Platform, fold: Fold, size: nat)
      ensures this.pf == pf && l == Limits(fold, size, FolderBudget(size)) && State() == Nothing
    {
      this.pf, l := pf, Limits(fold, size, FolderBudget(size));
      disk, created, written, folders, files := map[], map[], 0, 0, 0;
    }

    /** Creates one folder, below folders that exist. */
    method MakeFolder(prefix: Path, refused: bool) returns (err: Option<Error>)
      modifies this
      ensures Did(MakeOne(l, old(State()), prefix, refused), err)
    {
      if prefix in created { return if created[prefix] then None else Some(BothKinds); }
      if FoldPath(l.fold, prefix) in disk { return Some(Folded); }
      if folders >= l.maxDirs { return Some(TooManyFolders); }
      if refused { return Some(Refused); }
      disk := disk[FoldPath(l.fold, prefix) := Folder];
      folders := folders + 1;
      created := created[prefix := true];
      return None;
    }

    /** Creates every folder along a slash path, one component at a time. */
    method MkdirAll(rel: string, refused: bool) returns (err: Option<Error>)
      modifies this
      ensures Did(MakeAll(l, old(State()), Split(rel), refused), err)
    {
      var i := 0;
      while i <= |rel|
        invariant 0 <= i <= |rel| + 1
        invariant MakeAll(l, old(State()), Split(rel), refused) == MakeFrom(l, State(), Split(rel), Done(rel, i), refused)
      {
        if i < |rel| && rel[i] != '/' {
          NoPrefixAt(rel, i);
          i := i + 1;
          continue;
        }
        PrefixAt(rel, i);
        var failed := MakeFolder(Split(rel[..i]), refused);
        if failed.Some? { return failed; }
        i := i + 1;
      }
      return None;
    }

    /** Creates one file; nothing is ever replaced. */
    method WriteFile(rel: string, entry: Next) returns (err: Option<Error>)
      requires entry.Entry?
      modifies this
      ensures Did(WriteEntry(l, old(State()), Split(rel), entry), err)
    {
      if entry.hdr.size > l.limit - written { return Some(TooLarge); }
      err := MkdirParent(rel, entry.refused);
      if err.None? {
        err := OpenAndCopy(Split(rel), entry);
      }
    }

    /** Creates the folders above a file. */
    method MkdirParent(rel: string, refused: bool) returns (err: Option<Error>)
      modifies this
      ensures Did(MakeAll(l, old(State()), Split(rel)[..|Split(rel)| - 1], refused), err)
    {
      ParentOf(rel);
      var i := LastSlash(rel);
      if i < 0 {
        assert Split(rel)[..|Split(rel)| - 1] == [];
        return None;
      }
      err := MkdirAll(rel[..i], refused);
    }

    method OpenAndCopy(rel: Path, entry: Next) returns (err: Option<Error>)
      requires entry.Entry?
      modifies this
      ensures Did(CreateFile(l, old(State()), rel, entry), err)
    {
      if rel in created { return Some(if created[rel] then BothKinds else Repeated); }
      if FoldPath(l.fold, rel) in disk { return Some(Repeated); }
      if entry.refused { return Some(Refused); }
      disk := disk[FoldPath(l.fold, rel) := File(entry.body, entry.hdr.mode & 0x049 != 0)];
      created := created[rel := false];
      written := written + |entry.body|;
      if |entry.body| < entry.hdr.size { return Some(ReadFailed); }
      files := files + 1;
      return None;
    }

    method One(next: Next) returns (err: Option<Error>)
      modifies this
      ensures Did(ExtractOne(pf, l, old(State()), next), err)
    {
      match next
      case Unreadable => err := Some(BadHeader);
      case Broken => err := Some(ReadFailed);
      case Entry(hdr, body, refused) =>
        if hdr.sparse { return Some(SparseFile); }
        var path := EntryPath(pf, hdr.name);
        if path.Err? { return Some(path.error); }
        if path.value == [] { return None; }
        match hdr.kind
        case Directory => err := MkdirAll(Join(path.value), refused);
        case Regular => err := WriteFile(Join(path.value), next);
        case OtherType => err := Some(NotFileOrFolder);
    }

    method UnpackAll(entries: seq<Next>) returns (err: Option<Error>)
      requires State() == Nothing
      modifies this
      ensures Did(ExtractAll(pf, l, entries), err)
    {
      for i := 0 to |entries|
        invariant ExtractAll(pf, l, entries[..i]) == Ok(State())
      {
        ExtractsOn(pf, l, entries, i, State());
        err := One(entries[i]);
        if err.Some? { return; }
      }
      assert entries[..|entries|] == entries;
      return None;
    }

    /** Unpacks the stream; the announced length is the limit the extractor was made with. */
    method ExtractInto(stream: Stream) returns (r: Result<(nat, nat), Error>)
      requires State() == Nothing && l.maxDirs == FolderBudget(l.limit)
      modifies this
      ensures match Extracted(pf, l.fold, stream, l.limit)
              case Ok(x) => r == Ok((x.files, x.written)) && State() == x
              case Err(e) => r == Err(e)
    {
      var err := UnpackAll(stream.entries);
      if err.Some? { return Err(err.value); }
      var read := if stream.bytes < l.limit then stream.bytes else l.limit;
      if read != l.limit { return Err(Incomplete); }
      return Ok((files, written));
    }
  }
}
