/** Planning the transfer of a folder and writing it as an entry stream. */
module FolderSend {
  import opened Wrappers
  import opened Filenames
  import opened FolderPaths
  import opened FolderExtract

  // ---- scanning ----

  /** A file, a folder with its children in order of name, or something else on the sender's disk. */
  datatype Source =
    | SourceFile(size: nat, exec: bool)
    | SourceFolder(children: Listing)
    | SymbolicLink
    | SpecialFile

  datatype Listing = NoMore | Child(name: string, node: Source, rest: Listing)

  datatype PlanEntry = PlanEntry(rel: Path, isDir: bool, size: nat, exec: bool)

  const JUNK_FILES: set<string> := { ".DS_Store", "Icon\r", "Thumbs.db", "desktop.ini" }

  const JUNK_FOLDERS: set<string> :=
    { "__MACOSX", ".Spotlight-V100", ".fseventsd", ".Trashes", ".TemporaryItems", ".DocumentRevisions-V100" }

  predicate IsJunk(name: string, isDir: bool) {
    if isDir then name in JUNK_FOLDERS else name in JUNK_FILES || "._" <= name
  }

  /** Left out: system files and folders, links, and anything that is neither a file nor a folder. */
  predicate Skips(name: string, node: Source) {
    IsJunk(name, node.SourceFolder?) || node.SymbolicLink? || node.SpecialFile?
  }

  predicate CanSend(pf: Platform, rel: Path)
    requires rel != []
  {
    ValidFilename(pf, rel[|rel| - 1]) && |rel| <= MAX_ENTRY_DEPTH && |Join(rel)| <= MAX_ENTRY_PATH_LEN
  }

  /** The entries for the children of the folder at rel, in walk order: a folder comes before what is in it. */
  function Walk(pf: Platform, rel: Path, children: Listing): Result<seq<PlanEntry>, Error>
    decreases children
  {
    match children
    case NoMore => Ok([])
    case Child(name, node, rest) =>
      match Visit(pf, rel + [name], node)
      case Err(e) => Err(e)
      case Ok(first) =>
        match Walk(pf, rel, rest)
        case Err(e) => Err(e)
        case Ok(more) => Ok(first + more)
  }

  /** A folder goes in front of what is inside it. */
  function WithFolder(rel: Path, inside: seq<PlanEntry>): seq<PlanEntry> { [PlanEntry(rel, true, 0, false)] + inside }

  function Visit(pf: Platform, rel: Path, node: Source): Result<seq<PlanEntry>, Error>
    requires rel != []
    decreases node
  {
    if Skips(rel[|rel| - 1], node) then Ok([])
    else if !CanSend(pf, rel) then Err(CannotSend)
    else
      match node
      case SourceFile(size, exec) => Ok([PlanEntry(rel, false, size, exec)])
      case SourceFolder(children) =>
        match Walk(pf, rel, children)
        case Err(e) => Err(e)
        case Ok(entries) => Ok(WithFolder(rel, entries))
  }

  function Names(children: Listing): set<string> {
    match children
    case NoMore => {}
    case Child(name, _, rest) => {name} + Names(rest)
  }

  /** Names within one folder are distinct, all the way down. */
  predicate WellNamed(children: Listing) {
    match children
    case NoMore => true
    case Child(name, node, rest) =>
      name !in Names(rest) && WellNamed(rest) && (node.SourceFolder? ==> WellNamed(node.children))
  }

  // ---- writing ----

  function HeaderOf(e: PlanEntry): Header {
    if e.isDir then Header(Join(e.rel) + "/", Directory, 0x1C0, 0, false)
    else Header(Join(e.rel), Regular, if e.exec then 0x1C0 else 0x180, e.size, false)
  }

  function Padding(size: nat): nat { (512 - size % 512) % 512 }

  /** What the container format takes for a header: whole blocks, at least one. */
  ghost predicate BlockHeaders(headerLen: Header -> nat) {
    forall h :: headerLen(h) >= 512 && headerLen(h) % 512 == 0
  }

  function TarSum(headerLen: Header -> nat, entries: seq<PlanEntry>): nat {
    if entries == [] then 0
    else
      var e := entries[|entries| - 1];
      TarSum(headerLen, entries[..|entries| - 1]) + headerLen(HeaderOf(e)) + (e.size + 511) / 512 * 512
  }

  function TarSize(headerLen: Header -> nat, entries: seq<PlanEntry>): nat {
    TarSum(headerLen, entries) + 1024
  }

  /** The tar writer: bytes out so far, padding owed for the last body, bytes of it still missing, entries. */
  datatype Writer = Writer(out: nat, pad: nat, missing: nat, entries: seq<Next>)

  const Blank := Writer(0, 0, 0, [])

  function WriteHeader(headerLen: Header -> nat, w: Writer, h: Header): Writer {
    Writer(w.out + w.pad + headerLen(h), Padding(h.size), h.size, w.entries + [Entry(h, "", false)])
  }

  /** What a file holds when it is sent: nothing when it vanished, cannot be opened or is no longer a regular file. */
  type Disk = Path -> Option<string>

  function WriteBody(w: Writer, data: string): Writer
    requires w.entries != [] && w.entries[|w.entries| - 1].Entry? && |data| == w.missing
  {
    var n := |w.entries| - 1;
    Writer(w.out + |data|, w.pad, 0, w.entries[n := w.entries[n].(body := w.entries[n].body + data)])
  }

  /** A file must still be there with the size it had when the folder was scanned. */
  function WriteOne(headerLen: Header -> nat, disk: Disk, w: Writer, e: PlanEntry): Result<Writer, Error> {
    var w' := WriteHeader(headerLen, w, HeaderOf(e));
    if e.isDir then Ok(w')
    else if disk(e.rel).None? || |disk(e.rel).value| != e.size then Err(Changed)
    else Ok(WriteBody(w', disk(e.rel).value))
  }

  function WriteAll(headerLen: Header -> nat, disk: Disk, entries: seq<PlanEntry>): Result<Writer, Error> {
    if entries == [] then Ok(Blank)
    else
      match WriteAll(headerLen, disk, entries[..|entries| - 1])
      case Err(e) => Err(e)
      case Ok(w) => WriteOne(headerLen, disk, w, entries[|entries| - 1])
  }

  /** The whole stream: the last padding and the end-of-archive marker follow the entries. */
  function WriteTar(headerLen: Header -> nat, disk: Disk, entries: seq<PlanEntry>): Result<Stream, Error> {
    match WriteAll(headerLen, disk, entries)
    case Err(e) => Err(e)
    case Ok(w) => Ok(Stream(w.entries, w.out + w.pad + 1024))
  }

  /** The plan's files are on disk with the sizes they had. */
  ghost predicate Unchanged(disk: Disk, entries: seq<PlanEntry>) {
    forall e | e in entries && !e.isDir :: disk(e.rel).Some? && |disk(e.rel).value| == e.size
  }

  function Content(disk: Disk, e: PlanEntry): string {
    if !e.isDir && disk(e.rel).Some? then disk(e.rel).value else ""
  }

  /** The entries that go out for a plan. */
  function SentAll(disk: Disk, entries: seq<PlanEntry>): (out: seq<Next>)
    ensures |out| == |entries|
  {
    if entries == [] then []
    else
      var e := entries[|entries| - 1];
      SentAll(disk, entries[..|entries| - 1]) + [Entry(HeaderOf(e), Content(disk, e), false)]
  }

  lemma PaddedSize(size: nat)
    ensures size + Padding(size) == (size + 511) / 512 * 512
  {
    var q, r := size / 512, size % 512;
    assert size == 512 * q + r;
    if r == 0 {
      assert (size + 511) / 512 == q;
    } else {
      assert size + 511 == 512 * (q + 1) + (r - 1);
      assert (size + 511) / 512 == q + 1;
    }
  }

  lemma WriteOneShape(headerLen: Header -> nat, disk: Disk, w: Writer, e: PlanEntry)
    requires e.isDir ==> e.size == 0
    ensures WriteOne(headerLen, disk, w, e).Ok? <==> Unchanged(disk, [e])
    ensures Unchanged(disk, [e]) ==>
              var w' := WriteOne(headerLen, disk, w, e).value;
              && w'.entries == w.entries + [Entry(HeaderOf(e), Content(disk, e), false)]
              && w'.out + w'.pad == w.out + w.pad + headerLen(HeaderOf(e)) + (e.size + 511) / 512 * 512
  {
    PaddedSize(e.size);
    assert e in [e];
    assert "" + Content(disk, e) == Content(disk, e);
  }

  lemma {:induction false} WriteAllShape(headerLen: Header -> nat, disk: Disk, entries: seq<PlanEntry>)
    requires forall e | e in entries && e.isDir :: e.size == 0
    ensures Unchanged(disk, entries) <==> WriteAll(headerLen, disk, entries).Ok?
    ensures Unchanged(disk, entries) ==>
              var w := WriteAll(headerLen, disk, entries).value;
              w.entries == SentAll(disk, entries) && w.out + w.pad == TarSum(headerLen, entries)
  {
    if entries != [] {
      var n := |entries| - 1;
      assert entries == entries[..n] + [entries[n]];
      assert Unchanged(disk, entries) <==> Unchanged(disk, entries[..n]) && Unchanged(disk, [entries[n]]);
      WriteAllShape(headerLen, disk, entries[..n]);
      if Unchanged(disk, entries[..n]) {
        WriteOneShape(headerLen, disk, WriteAll(headerLen, disk, entries[..n]).value, entries[n]);
      }
    }
  }

  /** The stream is written exactly when no file changed, and then its length is the announced one. */
  lemma StreamLengthIsTarSize(headerLen: Header -> nat, disk: Disk, entries: seq<PlanEntry>)
    requires forall e | e in entries && e.isDir :: e.size == 0
    ensures WriteTar(headerLen, disk, entries).Ok? <==> Unchanged(disk, entries)
    ensures WriteTar(headerLen, disk, entries).Ok? ==>
              WriteTar(headerLen, disk, entries).value == Stream(SentAll(disk, entries), TarSize(headerLen, entries))
  {
    WriteAllShape(headerLen, disk, entries);
  }

  // ---- every plan is good ----

  /** What is listed for the folder at rel lies below it, under one of the names. */
  ghost predicate Below(entries: seq<PlanEntry>, rel: Path, names: set<string>) {
    forall e | e in entries :: |e.rel| > |rel| && e.rel[..|rel|] == rel && e.rel[|rel|] in names
  }

  /** The folder of an entry is listed before it, unless that is the folder at rel. */
  ghost predicate ParentsIn(entries: seq<PlanEntry>, rel: Path) {
    forall i | 0 <= i < |entries| && |entries[i].rel| > |rel| + 1 :: ListedBefore(entries, i)
  }

  ghost predicate ListedBefore(entries: seq<PlanEntry>, i: nat)
    requires i < |entries|
  {
    entries[i].rel != [] &&
    exists j :: 0 <= j < i && entries[j].isDir && entries[j].rel == entries[i].rel[..|entries[i].rel| - 1]
  }

  ghost predicate Distinct(entries: seq<PlanEntry>) {
    forall i, j | 0 <= i < j < |entries| :: entries[i].rel != entries[j].rel
  }

  ghost predicate AllSendable(pf: Platform, entries: seq<PlanEntry>) {
    forall e | e in entries :: Sendable(pf, e.rel) && (e.isDir ==> e.size == 0)
  }

  lemma JoinLists(a: seq<PlanEntry>, b: seq<PlanEntry>, rel: Path, x: set<string>, y: set<string>)
    requires Below(a, rel, x) && Below(b, rel, y) && x !! y
    requires Distinct(a) && Distinct(b) && ParentsIn(a, rel) && ParentsIn(b, rel)
    ensures Below(a + b, rel, x + y) && Distinct(a + b) && ParentsIn(a + b, rel)
  {
    var c := a + b;
    forall i, j | 0 <= i < j < |c| ensures c[i].rel != c[j].rel {
      if i < |a| <= j {
        assert c[i] in a && c[j] in b;
      }
    }
    forall i | 0 <= i < |c| && |c[i].rel| > |rel| + 1 ensures ListedBefore(c, i) {
      if i < |a| {
        assert ListedBefore(a, i);
        var j :| 0 <= j < i && a[j].isDir && a[j].rel == a[i].rel[..|a[i].rel| - 1];
        assert c[j] == a[j];
      } else {
        assert ListedBefore(b, i - |a|);
        var j :| 0 <= j < i - |a| && b[j].isDir && b[j].rel == b[i - |a|].rel[..|b[i - |a|].rel| - 1];
        assert c[|a| + j] == b[j];
      }
    }
  }

  /** Paths are acceptable and distinct, and a folder is listed before what is in it. */
  ghost predicate GoodPlan(pf: Platform, entries: seq<PlanEntry>) {
    AllSendable(pf, entries) && Distinct(entries) && ParentsIn(entries, [])
  }

  lemma PrependFolder(rel: Path, inside: seq<PlanEntry>, names: set<string>)
    requires rel != [] && Below(inside, rel, names) && Distinct(inside) && ParentsIn(inside, rel)
    ensures var base := rel[..|rel| - 1];
            && Below(WithFolder(rel, inside), base, {rel[|rel| - 1]})
            && Distinct(WithFolder(rel, inside)) && ParentsIn(WithFolder(rel, inside), base)
  {
    InsideBelow(rel, inside, names);
    InsideDistinct(rel, inside, names);
    InsideParents(rel, inside, names);
  }

  lemma InsideDistinct(rel: Path, inside: seq<PlanEntry>, names: set<string>)
    requires Below(inside, rel, names) && Distinct(inside)
    ensures Distinct(WithFolder(rel, inside))
  {
    var all := WithFolder(rel, inside);
    forall i, j | 0 <= i < j < |all| ensures all[i].rel != all[j].rel {
      assert all[j] == inside[j - 1] && inside[j - 1] in inside;
    }
  }

  lemma InsideParents(rel: Path, inside: seq<PlanEntry>, names: set<string>)
    requires rel != [] && Below(inside, rel, names) && ParentsIn(inside, rel)
    ensures ParentsIn(WithFolder(rel, inside), rel[..|rel| - 1])
  {
    var all := WithFolder(rel, inside);
    forall i | 0 <= i < |all| && |all[i].rel| > |rel| ensures ListedBefore(all, i) {
      InsideListed(rel, inside, names, i - 1);
    }
  }

  lemma InsideBelow(rel: Path, inside: seq<PlanEntry>, names: set<string>)
    requires rel != [] && Below(inside, rel, names)
    ensures Below(WithFolder(rel, inside), rel[..|rel| - 1], {rel[|rel| - 1]})
  {
    var n := |rel| - 1;
    forall e | e in inside ensures |e.rel| > n && e.rel[..n] == rel[..n] && e.rel[n] == rel[n] {
      assert e.rel[..|rel|] == rel;
      assert e.rel[..|rel|][..n] == e.rel[..n] && e.rel[..|rel|][n] == e.rel[n];
    }
  }

  lemma InsideListed(rel: Path, inside: seq<PlanEntry>, names: set<string>, i: nat)
    requires rel != [] && Below(inside, rel, names) && ParentsIn(inside, rel) && i < |inside|
    ensures ListedBefore(WithFolder(rel, inside), i + 1)
  {
    var all := WithFolder(rel, inside);
    var e := inside[i];
    assert e in inside && all[i + 1] == e;
    if |e.rel| == |rel| + 1 {
      assert all[0].isDir && all[0].rel == e.rel[..|e.rel| - 1];
    } else {
      ListedLater(rel, inside, i);
    }
  }

  lemma ListedLater(rel: Path, inside: seq<PlanEntry>, i: nat)
    requires i < |inside| && ListedBefore(inside, i)
    ensures ListedBefore(WithFolder(rel, inside), i + 1)
  {
    var all := WithFolder(rel, inside);
    var j :| 0 <= j < i && inside[j].isDir && inside[j].rel == inside[i].rel[..|inside[i].rel| - 1];
    assert all[i + 1] == inside[i] && all[j + 1] == inside[j];
  }

  lemma CanSendIsSendable(pf: Platform, rel: Path)
    requires rel != [] && AllValid(pf, rel[..|rel| - 1]) && CanSend(pf, rel)
    ensures Sendable(pf, rel) && AllValid(pf, rel)
  {
    forall i | 0 <= i < |rel| ensures ValidFilename(pf, rel[i]) {
      if i < |rel| - 1 { assert rel[i] == rel[..|rel| - 1][i]; }
    }
  }

  /** Listed below base, under one of the names: acceptable and distinct paths, with parents first. */
  ghost predicate Good(pf: Platform, entries: seq<PlanEntry>, base: Path, names: set<string>) {
    AllSendable(pf, entries) && Distinct(entries) && Below(entries, base, names) && ParentsIn(entries, base)
  }

  lemma NothingGood(pf: Platform, base: Path, names: set<string>)
    ensures Good(pf, [], base, names)
  {
  }

  lemma FileGood(pf: Platform, rel: Path, e: PlanEntry)
    requires rel != [] && Sendable(pf, rel) && e.rel == rel && !e.isDir
    ensures Good(pf, [e], rel[..|rel| - 1], {rel[|rel| - 1]})
  {
  }

  lemma FolderGood(pf: Platform, rel: Path, inside: seq<PlanEntry>, names: set<string>)
    requires rel != [] && Sendable(pf, rel) && Good(pf, inside, rel, names)
    ensures Good(pf, WithFolder(rel, inside), rel[..|rel| - 1], {rel[|rel| - 1]})
  {
    PrependFolder(rel, inside, names);
  }

  lemma {:induction false} VisitGood(pf: Platform, rel: Path, node: Source)
    requires rel != [] && AllValid(pf, rel[..|rel| - 1]) && Visit(pf, rel, node).Ok?
    requires node.SourceFolder? ==> WellNamed(node.children)
    ensures Good(pf, Visit(pf, rel, node).value, rel[..|rel| - 1], {rel[|rel| - 1]})
    decreases node
  {
    if Skips(rel[|rel| - 1], node) {
      NothingGood(pf, rel[..|rel| - 1], {rel[|rel| - 1]});
    } else {
      CanSendIsSendable(pf, rel);
      match node
      case SourceFile(size, exec) => FileGood(pf, rel, PlanEntry(rel, false, size, exec));
      case SourceFolder(children) =>
        WalkGood(pf, rel, children);
        FolderGood(pf, rel, Walk(pf, rel, children).value, Names(children));
    }
  }

  lemma {:induction false} WalkGood(pf: Platform, rel: Path, children: Listing)
    requires AllValid(pf, rel) && WellNamed(children) && Walk(pf, rel, children).Ok?
    ensures Good(pf, Walk(pf, rel, children).value, rel, Names(children))
    decreases children
  {
    match children
    case NoMore => NothingGood(pf, rel, {});
    case Child(name, node, rest) =>
      var here := rel + [name];
      assert here[..|here| - 1] == rel;
      VisitGood(pf, here, node);
      WalkGood(pf, rel, rest);
      BothGood(pf, Visit(pf, here, node).value, Walk(pf, rel, rest).value, rel, {name}, Names(rest));
  }

  lemma BothGood(pf: Platform, a: seq<PlanEntry>, b: seq<PlanEntry>, rel: Path, x: set<string>, y: set<string>)
    requires Good(pf, a, rel, x) && Good(pf, b, rel, y) && x !! y
    ensures Good(pf, a + b, rel, x + y)
  {
    JoinLists(a, b, rel, x, y);
  }

  /** Every plan that a scan produces is good. */
  lemma PlanIsGood(pf: Platform, children: Listing)
    requires WellNamed(children) && Walk(pf, [], children).Ok?
    ensures GoodPlan(pf, Walk(pf, [], children).value)
  {
    WalkGood(pf, [], children);
  }

  // ---- a plan lists what it should ----

  function Lookup(children: Listing, name: string): Option<Source> {
    match children
    case NoMore => None
    case Child(n, node, rest) => if n == name then Some(node) else Lookup(rest, name)
  }

  /** What is at a path below a folder, unless it or a folder above it is left out. */
  function KeptAt(children: Listing, p: Path): Option<Source>
    requires p != []
    decreases |p|
  {
    match Lookup(children, p[0])
    case None => None
    case Some(node) =>
      if Skips(p[0], node) then None
      else if |p| == 1 then Some(node)
      else if node.SourceFolder? then KeptAt(node.children, p[1..])
      else None
  }

  /** The entry for a file or folder. */
  predicate Describes(e: PlanEntry, node: Source) {
    match node
    case SourceFile(size, exec) => !e.isDir && e.size == size && e.exec == exec
    case SourceFolder(_) => e.isDir && e.size == 0 && !e.exec
    case _ => false
  }

  predicate Listed(rel: Path, children: Listing, e: PlanEntry) {
    && |rel| < |e.rel| && e.rel[..|rel|] == rel
    && KeptAt(children, e.rel[|rel|..]).Some?
    && Describes(e, KeptAt(children, e.rel[|rel|..]).value)
  }

  lemma {:induction false} LookupNone(children: Listing, name: string)
    requires name !in Names(children)
    ensures Lookup(children, name).None?
  {
    if children.Child? {
      LookupNone(children.rest, name);
    }
  }

  predicate ListedAt(rel: Path, node: Source, e: PlanEntry)
    requires rel != []
  {
    && !Skips(rel[|rel| - 1], node)
    && ((e.rel == rel && Describes(e, node)) || (node.SourceFolder? && Listed(rel, node.children, e)))
  }

  lemma ListedBelow(rel: Path, name: string, node: Source, e: PlanEntry)
    requires ListedAt(rel + [name], node, e)
    ensures |rel| < |e.rel| && e.rel[..|rel|] == rel && e.rel[|rel|] == name
  {
    var here := rel + [name];
    assert e.rel[..|here|] == here;
    assert e.rel[..|rel|] == here[..|rel|] && e.rel[|rel|] == here[|rel|];
  }

  lemma ListedInChild(rel: Path, children: Listing, e: PlanEntry)
    requires children.Child? && children.name !in Names(children.rest)
    ensures Listed(rel, children, e) <==>
            ListedAt(rel + [children.name], children.node, e) || Listed(rel, children.rest, e)
  {
    LookupNone(children.rest, children.name);
    var here := rel + [children.name];
    if ListedAt(here, children.node, e) {
      ListedBelow(rel, children.name, children.node, e);
    }
    if |rel| < |e.rel| && e.rel[..|rel|] == rel {
      var p := e.rel[|rel|..];
      assert p[0] == e.rel[|rel|];
      if p[0] == children.name {
        assert e.rel[..|here|] == here;
        assert e.rel[|here|..] == p[1..];
        assert e.rel == rel + p;
      }
    }
  }

  lemma {:induction false} VisitLists(pf: Platform, rel: Path, node: Source, e: PlanEntry)
    requires rel != [] && Visit(pf, rel, node).Ok? && (node.SourceFolder? ==> WellNamed(node.children))
    ensures e in Visit(pf, rel, node).value <==> ListedAt(rel, node, e)
    decreases node
  {
    if !Skips(rel[|rel| - 1], node) && node.SourceFolder? {
      WalkLists(pf, rel, node.children, e);
    }
  }

  lemma {:induction false} WalkLists(pf: Platform, rel: Path, children: Listing, e: PlanEntry)
    requires WellNamed(children) && Walk(pf, rel, children).Ok?
    ensures e in Walk(pf, rel, children).value <==> Listed(rel, children, e)
    decreases children
  {
    if children.Child? {
      VisitLists(pf, rel + [children.name], children.node, e);
      WalkLists(pf, rel, children.rest, e);
      ListedInChild(rel, children, e);
    }
  }

  /** A plan lists a file or folder exactly when it is on disk and neither it nor a folder above it is left out. */
  lemma PlanListsWhatIsKept(pf: Platform, children: Listing, e: PlanEntry)
    requires WellNamed(children) && Walk(pf, [], children).Ok?
    ensures e in Walk(pf, [], children).value <==>
            e.rel != [] && KeptAt(children, e.rel).Some? && Describes(e, KeptAt(children, e.rel).value)
  {
    WalkLists(pf, [], children, e);
    assert e.rel[0..] == e.rel;
  }
}
