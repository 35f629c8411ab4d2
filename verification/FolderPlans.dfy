/** Which folders can be sent, what is left out of them, and how long their streams are. */
module FolderPlans {
  import opened Wrappers
  import opened Filenames
  import opened FolderPaths
  import opened FolderExtract
  import opened FolderSend

  // ---- what is left out ----

  /** Left out: files and folders that systems make for themselves, and whatever is neither a file nor a folder. */
  lemma SkipsMeans(name: string, node: Source)
    ensures Skips(name, node) <==>
            match node
            case SourceFile(_, _) =>
              || name == ".DS_Store" || name == "Icon\r" || name == "Thumbs.db" || name == "desktop.ini"
              || (|name| >= 2 && name[0] == '.' && name[1] == '_')
            case SourceFolder(_) =>
              || name == "__MACOSX" || name == ".Spotlight-V100" || name == ".fseventsd" || name == ".Trashes"
              || name == ".TemporaryItems" || name == ".DocumentRevisions-V100"
            case _ => true
  {
    assert |name| >= 2 ==> name[..2] == [name[0], name[1]];
  }

  // ---- when a scan succeeds ----

  /** Everything below the folder at rel that is not left out can be sent. */
  ghost predicate AllFit(pf: Platform, rel: Path, children: Listing) {
    forall p | p != [] && KeptAt(children, p).Some? :: CanSend(pf, rel + p)
  }

  ghost predicate NodeFits(pf: Platform, rel: Path, node: Source)
    requires rel != []
  {
    Skips(rel[|rel| - 1], node) || (CanSend(pf, rel) && (node.SourceFolder? ==> AllFit(pf, rel, node.children)))
  }

  lemma {:induction false} VisitOk(pf: Platform, rel: Path, node: Source)
    requires rel != [] && (node.SourceFolder? ==> WellNamed(node.children))
    ensures Visit(pf, rel, node).Ok? <==> NodeFits(pf, rel, node)
    decreases node
  {
    if node.SourceFolder? {
      WalkOk(pf, rel, node.children);
    }
  }

  lemma {:induction false} WalkOk(pf: Platform, rel: Path, children: Listing)
    requires WellNamed(children)
    ensures Walk(pf, rel, children).Ok? <==> AllFit(pf, rel, children)
    decreases children
  {
    match children
    case NoMore =>
    case Child(name, node, rest) =>
      VisitOk(pf, rel + [name], node);
      WalkOk(pf, rel, rest);
      FitsSplit(pf, rel, children);
  }

  lemma FitsSplit(pf: Platform, rel: Path, children: Listing)
    requires children.Child? && WellNamed(children)
    ensures AllFit(pf, rel, children) <==>
            NodeFits(pf, rel + [children.name], children.node) && AllFit(pf, rel, children.rest)
  {
    var here := rel + [children.name];
    LookupNone(children.rest, children.name);
    if AllFit(pf, rel, children) {
      FirstFits(pf, rel, children);
      forall p | p != [] && KeptAt(children.rest, p).Some? ensures CanSend(pf, rel + p) {
        assert KeptAt(children, p) == KeptAt(children.rest, p);
      }
    }
    if NodeFits(pf, here, children.node) && AllFit(pf, rel, children.rest) {
      forall p | p != [] && KeptAt(children, p).Some? ensures CanSend(pf, rel + p) {
        if p[0] == children.name { InFirst(pf, rel, children, p); } else { assert KeptAt(children, p) == KeptAt(children.rest, p); }
      }
    }
  }

  lemma KeptInFirst(children: Listing, p: Path)
    requires children.Child? && !Skips(children.name, children.node)
    ensures KeptAt(children, [children.name]).Some?
    ensures p != [] && children.node.SourceFolder? ==>
              KeptAt(children, [children.name] + p) == KeptAt(children.node.children, p)
  {
    assert ([children.name] + p)[1..] == p;
  }

  lemma FirstFits(pf: Platform, rel: Path, children: Listing)
    requires children.Child? && AllFit(pf, rel, children)
    ensures NodeFits(pf, rel + [children.name], children.node)
  {
    var here, name := rel + [children.name], children.name;
    if !Skips(name, children.node) {
      KeptInFirst(children, []);
      assert CanSend(pf, rel + [name]);
      if children.node.SourceFolder? {
        forall p | p != [] && KeptAt(children.node.children, p).Some? ensures CanSend(pf, here + p) {
          BelowFirst(pf, rel, children, p, here + p);
        }
      }
    }
  }

  lemma BelowFirst(pf: Platform, rel: Path, children: Listing, p: Path, full: Path)
    requires children.Child? && !Skips(children.name, children.node) && children.node.SourceFolder?
    requires AllFit(pf, rel, children) && p != [] && KeptAt(children.node.children, p).Some?
    requires full == rel + [children.name] + p
    ensures CanSend(pf, full)
  {
    var q := [children.name] + p;
    KeptInFirst(children, p);
    assert full == rel + q;
  }

  lemma InFirst(pf: Platform, rel: Path, children: Listing, p: Path)
    requires children.Child? && p != [] && p[0] == children.name && KeptAt(children, p).Some?
    requires NodeFits(pf, rel + [children.name], children.node)
    ensures CanSend(pf, rel + p)
  {
    var here := rel + [children.name];
    assert p == [p[0]] + p[1..];
    if |p| == 1 {
      assert rel + p == here;
    } else {
      assert rel + p == here + p[1..];
    }
  }

  /** A scan succeeds exactly if everything that is not left out has a valid name, lies at most 64 levels deep, and has a path
      of at most 4096 bytes. */
  lemma ScanMeans(pf: Platform, children: Listing)
    requires WellNamed(children)
    ensures Walk(pf, [], children).Ok? <==>
            forall p | p != [] && KeptAt(children, p).Some? ::
              ValidFilename(pf, p[|p| - 1]) && |p| <= 64 && |Join(p)| <= 4096
  {
    WalkOk(pf, [], children);
    forall p | p != [] && KeptAt(children, p).Some?
      ensures CanSend(pf, [] + p) <==> ValidFilename(pf, p[|p| - 1]) && |p| <= 64 && |Join(p)| <= 4096
    {
      FromTop(pf, p);
    }
  }

  lemma FromTop(pf: Platform, p: Path)
    requires p != []
    ensures CanSend(pf, [] + p) <==> ValidFilename(pf, p[|p| - 1]) && |p| <= 64 && |Join(p)| <= 4096
  {
    assert [] + p == p;
  }

  // ---- what a header tells ----

  /** A header is read as the path of its entry, a folder's name ends in a slash and no file's does, and only the owner gets
      access: to read and write, and to execute a folder or an executable file. */
  lemma HeaderMeans(pf: Platform, e: PlanEntry)
    requires Sendable(pf, e.rel)
    ensures var h := HeaderOf(e);
            && EntryPath(pf, h.name) == Ok(e.rel) && !h.sparse && h.size == (if e.isDir then 0 else e.size)
            && (e.isDir <==> h.name[|h.name| - 1] == '/') && h.kind == (if e.isDir then Directory else Regular)
            && h.mode >> 7 == 3 && (h.mode >> 6) & 1 == (if e.isDir || e.exec then 1 else 0) && h.mode & 0x3F == 0
  {
    EntryPathOfJoin(pf, e.rel);
    forall i | 0 <= i < |e.rel| ensures '/' !in e.rel[i] && e.rel[i] != "" && e.rel[i] != "." { ValidHasNoSlash(pf, e.rel[i]); }
    JoinEnds(e.rel);
    assert (0x1C0 as bv12) >> 7 == 3 && (0x180 as bv12) >> 7 == 3 && (0x1C0 as bv12) & 0x3F == 0 && (0x180 as bv12) & 0x3F == 0;
    assert ((0x1C0 as bv12) >> 6) & 1 == 1 && ((0x180 as bv12) >> 6) & 1 == 0;
  }

  // ---- how long a stream is ----

  /** An empty archive is its end marker of 1024 bytes; an entry adds its header and its size rounded up to whole blocks. */
  lemma TarSizeMeans(headerLen: Header -> nat, entries: seq<PlanEntry>, e: PlanEntry)
    ensures TarSize(headerLen, []) == 1024
    ensures var more := TarSize(headerLen, entries + [e]) - TarSize(headerLen, entries) - headerLen(HeaderOf(e));
            more % 512 == 0 && e.size <= more < e.size + 512
  {
    assert (entries + [e])[..|entries|] == entries;
  }
}
