/** Extracting what was written for a plan gives back the plan. */
module FolderRoundTrip {
  import opened Wrappers
  import opened Filenames
  import opened FolderPaths
  import opened FolderExtract
  import opened FolderSend

  ghost predicate NoCollision(fold: Fold, entries: seq<PlanEntry>) {
    forall i, j | 0 <= i < j < |entries| :: FoldPath(fold, entries[i].rel) != FoldPath(fold, entries[j].rel)
  }

  function NodeOf(disk: Disk, e: PlanEntry): Node {
    if e.isDir then Folder else File(Content(disk, e), e.exec)
  }

  function Dirs(entries: seq<PlanEntry>): nat {
    if entries == [] then 0
    else
      var n := |entries| - 1;
      Dirs(entries[..n]) + if entries[n].isDir then 1 else 0
  }

  function Files(entries: seq<PlanEntry>): nat {
    if entries == [] then 0
    else
      var n := |entries| - 1;
      Files(entries[..n]) + if entries[n].isDir then 0 else 1
  }

  function ContentSize(entries: seq<PlanEntry>): nat {
    if entries == [] then 0
    else
      var n := |entries| - 1;
      ContentSize(entries[..n]) + if entries[n].isDir then 0 else entries[n].size
  }

  ghost function Rels(entries: seq<PlanEntry>): set<Path> { set e | e in entries :: e.rel }

  ghost function Folded(fold: Fold, entries: seq<PlanEntry>): set<Path> { set e | e in entries :: FoldPath(fold, e.rel) }

  /** An entry was created as what it is, and is on disk with its content. */
  ghost predicate Stands(fold: Fold, disk: Disk, e: PlanEntry, x: X) {
    && e.rel in x.created && x.created[e.rel] == e.isDir
    && FoldPath(fold, e.rel) in x.disk && x.disk[FoldPath(fold, e.rel)] == NodeOf(disk, e)
  }

  /** What is on disk is the plan: its folders and files, their contents and executable bits, and nothing else. */
  ghost predicate Recreates(fold: Fold, disk: Disk, entries: seq<PlanEntry>, x: X) {
    && x.created.Keys == Rels(entries) && x.disk.Keys == Folded(fold, entries)
    && (forall e | e in entries :: Stands(fold, disk, e, x))
    && x.folders == Dirs(entries) && x.files == Files(entries) && x.written == ContentSize(entries)
  }

  // ---- sizes ----

  lemma {:induction false} TarSumCovers(headerLen: Header -> nat, entries: seq<PlanEntry>)
    requires BlockHeaders(headerLen)
    ensures ContentSize(entries) <= TarSum(headerLen, entries) && 512 * Dirs(entries) <= TarSum(headerLen, entries)
  {
    if entries != [] {
      var n := |entries| - 1;
      TarSumCovers(headerLen, entries[..n]);
      PaddedSize(entries[n].size);
      assert headerLen(HeaderOf(entries[n])) >= 512;
    }
  }

  /** The folder budget covers every plan whose stream is at most 512 * 2^30 bytes long. */
  lemma BudgetCovers(headerLen: Header -> nat, entries: seq<PlanEntry>)
    requires BlockHeaders(headerLen) && TarSize(headerLen, entries) <= 512 * 0x4000_0000
    ensures Dirs(entries) <= FolderBudget(TarSize(headerLen, entries))
  {
    TarSumCovers(headerLen, entries);
  }

  // ---- one entry ----

  lemma {:induction false} ExistingPrefixes(l: Limits, x: X, rel: Path, n: nat, m: nat, refused: bool)
    requires n <= m <= |rel| && forall j | n < j <= m :: Folders(x, rel[..j])
    ensures MakeFrom(l, x, rel, n, refused) == MakeFrom(l, x, rel, m, refused)
    decreases m - n
  {
    if n < m {
      assert Folders(x, rel[..n + 1]);
      ExistingPrefixes(l, x, rel, n + 1, m, refused);
    }
  }

  lemma ParentsMadeAlready(l: Limits, x: X, rel: Path)
    requires ParentsMade(x, rel)
    ensures MakeAll(l, x, rel[..|rel| - 1], false) == Ok(x)
  {
    var parent := rel[..|rel| - 1];
    forall j | 0 < j <= |parent| ensures Folders(x, parent[..j]) {
      assert parent[..j] == rel[..j];
    }
    ExistingPrefixes(l, x, parent, 0, |parent|, false);
  }

  lemma BelowParent(x: X, rel: Path)
    requires |rel| > 1 && PrefixClosed(x) && Folders(x, rel[..|rel| - 1])
    ensures ParentsMade(x, rel)
  {
    var parent := rel[..|rel| - 1];
    forall j | 0 < j < |rel| ensures Folders(x, rel[..j]) {
      if j < |parent| {
        assert Folders(x, parent[..j]) && parent[..j] == rel[..j];
      }
    }
  }

  /** All folders above an entry exist once the entries before it are extracted. */
  lemma AboveExists(fold: Fold, disk: Disk, before: seq<PlanEntry>, e: PlanEntry, x: X)
    requires e.rel != [] && ParentsIn(before + [e], [])
    requires Recreates(fold, disk, before, x) && PrefixClosed(x)
    ensures ParentsMade(x, e.rel)
  {
    if |e.rel| > 1 {
      var d := ParentEntry(before, e);
      assert d.rel in Rels(before);
      BelowParent(x, e.rel);
    }
  }

  lemma ParentEntry(before: seq<PlanEntry>, e: PlanEntry) returns (d: PlanEntry)
    requires |e.rel| > 1 && ParentsIn(before + [e], [])
    ensures d in before && d.isDir && d.rel == e.rel[..|e.rel| - 1]
  {
    var all := before + [e];
    assert all[|before|] == e && ListedBefore(all, |before|);
    var k :| 0 <= k < |before| && all[k].isDir && all[k].rel == e.rel[..|e.rel| - 1];
    d := before[k];
  }

  ghost predicate Fresh(l: Limits, x: X, e: PlanEntry) {
    FoldPath(l.fold, e.rel) !in x.disk && (e.isDir ==> x.folders < l.maxDirs)
  }

  function After(fold: Fold, disk: Disk, x: X, e: PlanEntry): X {
    X(x.disk[FoldPath(fold, e.rel) := NodeOf(disk, e)], x.created[e.rel := e.isDir],
      x.written + (if e.isDir then 0 else e.size), x.folders + (if e.isDir then 1 else 0),
      x.files + if e.isDir then 0 else 1)
  }

  lemma MakeLast(l: Limits, x: X, rel: Path)
    requires ParentsMade(x, rel)
    ensures MakeAll(l, x, rel, false) == MakeOne(l, x, rel, false)
  {
    var n := |rel| - 1;
    ExistingPrefixes(l, x, rel, 0, n, false);
    assert rel[..n + 1] == rel;
  }

  lemma MakeStep(l: Limits, disk: Disk, x: X, e: PlanEntry)
    requires e.isDir && e.rel !in x.created
    ensures var r := MakeOne(l, x, e.rel, false);
            (r.Ok? <==> Fresh(l, x, e)) && (r.Ok? ==> r.value == After(l.fold, disk, x, e))
  {
  }

  lemma FolderEntryMakes(pf: Platform, l: Limits, x: X, e: PlanEntry, body: string)
    requires Sendable(pf, e.rel) && e.isDir
    ensures ExtractOne(pf, l, x, Entry(HeaderOf(e), body, false)) == MakeAll(l, x, e.rel, false)
  {
    EntryPathOfJoin(pf, e.rel);
  }

  lemma FolderStep(pf: Platform, l: Limits, disk: Disk, x: X, e: PlanEntry)
    requires Sendable(pf, e.rel) && e.isDir && e.rel !in x.created && ParentsMade(x, e.rel)
    ensures var r := ExtractOne(pf, l, x, Entry(HeaderOf(e), Content(disk, e), false));
            (r.Ok? <==> Fresh(l, x, e)) && (r.Ok? ==> r.value == After(l.fold, disk, x, e))
  {
    FolderEntryMakes(pf, l, x, e, Content(disk, e));
    MakeLast(l, x, e.rel);
    MakeStep(l, disk, x, e);
  }

  lemma ModeCarriesExec(e: PlanEntry)
    requires !e.isDir
    ensures HeaderOf(e).mode & 0x049 != 0 <==> e.exec
  {
    assert (0x1C0 as bv12) & 0x049 != 0 && (0x180 as bv12) & 0x049 == 0;
  }

  lemma CreateStep(l: Limits, disk: Disk, x: X, e: PlanEntry)
    requires !e.isDir && e.rel !in x.created && |Content(disk, e)| == e.size
    ensures var r := CreateFile(l, x, e.rel, Entry(HeaderOf(e), Content(disk, e), false));
            (r.Ok? <==> Fresh(l, x, e)) && (r.Ok? ==> r.value == After(l.fold, disk, x, e))
  {
    ModeCarriesExec(e);
  }

  lemma FileStep(pf: Platform, l: Limits, disk: Disk, x: X, e: PlanEntry)
    requires Sendable(pf, e.rel) && !e.isDir && e.rel !in x.created && ParentsMade(x, e.rel)
    requires |Content(disk, e)| == e.size <= l.limit - x.written
    ensures var r := ExtractOne(pf, l, x, Entry(HeaderOf(e), Content(disk, e), false));
            (r.Ok? <==> Fresh(l, x, e)) && (r.Ok? ==> r.value == After(l.fold, disk, x, e))
  {
    EntryPathOfJoin(pf, e.rel);
    ParentsMadeAlready(l, x, e.rel);
    CreateStep(l, disk, x, e);
  }

  lemma OneMoreSet(fold: Fold, before: seq<PlanEntry>, e: PlanEntry)
    ensures Rels(before + [e]) == Rels(before) + {e.rel}
    ensures Folded(fold, before + [e]) == Folded(fold, before) + {FoldPath(fold, e.rel)}
  {
    assert forall d :: d in before + [e] <==> d in before || d == e;
  }

  lemma StandsStill(fold: Fold, disk: Disk, d: PlanEntry, x: X, e: PlanEntry)
    requires d == e || Stands(fold, disk, d, x)
    requires e.rel !in x.created && FoldPath(fold, e.rel) !in x.disk
    ensures Stands(fold, disk, d, After(fold, disk, x, e))
  {
  }

  lemma CountOneMore(before: seq<PlanEntry>, e: PlanEntry)
    ensures Dirs(before + [e]) == Dirs(before) + if e.isDir then 1 else 0
    ensures Files(before + [e]) == Files(before) + if e.isDir then 0 else 1
    ensures ContentSize(before + [e]) == ContentSize(before) + if e.isDir then 0 else e.size
  {
    var all := before + [e];
    assert all[..|all| - 1] == before;
  }

  lemma AfterKeys(fold: Fold, disk: Disk, before: seq<PlanEntry>, x: X, e: PlanEntry)
    requires x.created.Keys == Rels(before) && x.disk.Keys == Folded(fold, before)
    ensures After(fold, disk, x, e).created.Keys == Rels(before + [e])
    ensures After(fold, disk, x, e).disk.Keys == Folded(fold, before + [e])
  {
    OneMoreSet(fold, before, e);
  }

  lemma AfterRecreates(fold: Fold, disk: Disk, before: seq<PlanEntry>, x: X, e: PlanEntry)
    requires Recreates(fold, disk, before, x)
    requires e.rel !in x.created && FoldPath(fold, e.rel) !in x.disk
    ensures Recreates(fold, disk, before + [e], After(fold, disk, x, e))
  {
    AfterKeys(fold, disk, before, x, e);
    CountOneMore(before, e);
    forall d | d in before + [e] ensures Stands(fold, disk, d, After(fold, disk, x, e)) {
      StandsStill(fold, disk, d, x, e);
    }
  }

  // ---- the whole stream ----

  /** The plan up to its n-th entry, and what was sent for it. */
  lemma PrefixOfPlan(pf: Platform, disk: Disk, entries: seq<PlanEntry>, n: nat)
    requires n <= |entries| && GoodPlan(pf, entries) && Unchanged(disk, entries)
    ensures GoodPlan(pf, entries[..n]) && Unchanged(disk, entries[..n])
  {
    assert forall e | e in entries[..n] :: e in entries;
    PrefixParents(entries, n);
  }

  lemma PrefixParents(entries: seq<PlanEntry>, n: nat)
    requires n <= |entries| && ParentsIn(entries, [])
    ensures ParentsIn(entries[..n], [])
  {
    forall i | 0 <= i < n && |entries[..n][i].rel| > 1 ensures ListedBefore(entries[..n], i) {
      PrefixListed(entries, n, i);
    }
  }

  lemma PrefixListed(entries: seq<PlanEntry>, n: nat, i: nat)
    requires i < n <= |entries| && ListedBefore(entries, i)
    ensures ListedBefore(entries[..n], i)
  {
    var j :| 0 <= j < i && entries[j].isDir && entries[j].rel == entries[i].rel[..|entries[i].rel| - 1];
    assert entries[..n][j] == entries[j] && entries[..n][i] == entries[i];
  }

  lemma {:induction false} SentIsReadable(disk: Disk, entries: seq<PlanEntry>)
    requires Unchanged(disk, entries)
    ensures Readable(Stream(SentAll(disk, entries), 0))
  {
    if entries != [] {
      var n := |entries| - 1;
      assert Unchanged(disk, entries[..n]);
      SentIsReadable(disk, entries[..n]);
      var sent := SentAll(disk, entries);
      assert sent[..n] == SentAll(disk, entries[..n]);
      forall i | 0 <= i < |sent| && sent[i].Entry? ensures |sent[i].body| <= sent[i].hdr.size {
        if i < n {
          assert |Stream(sent[..n], 0).entries[i].body| <= sent[..n][i].hdr.size;
        } else {
          assert entries[n] in entries;
        }
      }
    }
  }

  lemma LastIsNew(entries: seq<PlanEntry>)
    requires entries != [] && Distinct(entries)
    ensures entries[|entries| - 1].rel !in Rels(entries[..|entries| - 1])
  {
  }

  lemma AnyStep(pf: Platform, l: Limits, disk: Disk, x: X, e: PlanEntry)
    requires Sendable(pf, e.rel) && e.rel !in x.created && ParentsMade(x, e.rel)
    requires !e.isDir ==> |Content(disk, e)| == e.size <= l.limit - x.written
    ensures var r := ExtractOne(pf, l, x, Entry(HeaderOf(e), Content(disk, e), false));
            (r.Ok? <==> Fresh(l, x, e)) && (r.Ok? ==> r.value == After(l.fold, disk, x, e))
  {
    if e.isDir { FolderStep(pf, l, disk, x, e); } else { FileStep(pf, l, disk, x, e); }
  }

  lemma LastFits(pf: Platform, l: Limits, disk: Disk, before: seq<PlanEntry>, e: PlanEntry)
    requires GoodPlan(pf, before + [e]) && Unchanged(disk, before + [e]) && ContentSize(before + [e]) <= l.limit
    ensures Sendable(pf, e.rel) && e.rel !in Rels(before)
    ensures !e.isDir ==> |Content(disk, e)| == e.size <= l.limit - ContentSize(before)
  {
    assert e in before + [e];
    LastIsNew(before + [e]);
    assert (before + [e])[..|before|] == before;
    CountOneMore(before, e);
  }

  /** The next entry of a plan, once those before it are extracted. */
  lemma NextEntry(pf: Platform, l: Limits, disk: Disk, before: seq<PlanEntry>, e: PlanEntry, x: X)
    requires Sendable(pf, e.rel) && e.rel !in Rels(before) && ParentsIn(before + [e], [])
    requires !e.isDir ==> |Content(disk, e)| == e.size <= l.limit - ContentSize(before)
    requires Recreates(l.fold, disk, before, x) && PrefixClosed(x)
    ensures var r := ExtractOne(pf, l, x, Entry(HeaderOf(e), Content(disk, e), false));
            && (r.Ok? <==> Fresh(l, x, e))
            && (r.Ok? ==> Recreates(l.fold, disk, before + [e], r.value))
  {
    AboveExists(l.fold, disk, before, e, x);
    AnyStep(pf, l, disk, x, e);
    if Fresh(l, x, e) {
      AfterRecreates(l.fold, disk, before, x, e);
    }
  }

  lemma {:induction false} ExtractsExactly(pf: Platform, l: Limits, disk: Disk, entries: seq<PlanEntry>)
    requires GoodPlan(pf, entries) && Unchanged(disk, entries) && ContentSize(entries) <= l.limit
    ensures ExtractAll(pf, l, SentAll(disk, entries)).Ok? <==> NoCollision(l.fold, entries) && Dirs(entries) <= l.maxDirs
    ensures ExtractAll(pf, l, SentAll(disk, entries)).Ok? ==>
              Recreates(l.fold, disk, entries, ExtractAll(pf, l, SentAll(disk, entries)).value)
  {
    if entries != [] {
      var n := |entries| - 1;
      PrefixOfPlan(pf, disk, entries, n);
      assert entries[..n] + [entries[n]] == entries;
      CountOneMore(entries[..n], entries[n]);
      ExtractsExactly(pf, l, disk, entries[..n]);
      ArrivesOneMore(pf, l, disk, entries, entries[..n], entries[n]);
    }
  }

  lemma ArrivesOneMore(pf: Platform, l: Limits, disk: Disk, entries: seq<PlanEntry>, before: seq<PlanEntry>, e: PlanEntry)
    requires entries == before + [e]
    requires GoodPlan(pf, entries) && Unchanged(disk, entries) && ContentSize(entries) <= l.limit && Unchanged(disk, before)
    requires var r := ExtractAll(pf, l, SentAll(disk, before));
             (r.Ok? <==> NoCollision(l.fold, before) && Dirs(before) <= l.maxDirs)
             && (r.Ok? ==> Recreates(l.fold, disk, before, r.value))
    ensures var r := ExtractAll(pf, l, SentAll(disk, entries));
            (r.Ok? <==> NoCollision(l.fold, entries) && Dirs(entries) <= l.maxDirs)
            && (r.Ok? ==> Recreates(l.fold, disk, entries, r.value))
  {
    ExtractsOneMore(pf, l, disk, before, e);
    CountOneMore(before, e);
    assert entries[..|before|] == before;
    CollisionsSplit(l.fold, entries);
  }

  lemma ExtractsOneMore(pf: Platform, l: Limits, disk: Disk, before: seq<PlanEntry>, e: PlanEntry)
    requires GoodPlan(pf, before + [e]) && Unchanged(disk, before + [e]) && ContentSize(before + [e]) <= l.limit
    requires Unchanged(disk, before)
    requires var r := ExtractAll(pf, l, SentAll(disk, before));
             r.Ok? ==> Recreates(l.fold, disk, before, r.value)
    ensures var r := ExtractAll(pf, l, SentAll(disk, before));
            var r' := ExtractAll(pf, l, SentAll(disk, before + [e]));
            && (r'.Ok? <==> r.Ok? && Fresh(l, r.value, e))
            && (r'.Ok? ==> Recreates(l.fold, disk, before + [e], r'.value))
  {
    var r := ExtractAll(pf, l, SentAll(disk, before));
    SentOneMore(pf, l, disk, before, e);
    if r.Ok? {
      SentIsReadable(disk, before);
      ExtractAllKeepsInv(pf, l, SentAll(disk, before));
      LastFits(pf, l, disk, before, e);
      NextEntry(pf, l, disk, before, e, r.value);
    }
  }

  lemma SentOneMore(pf: Platform, l: Limits, disk: Disk, before: seq<PlanEntry>, e: PlanEntry)
    ensures var r := ExtractAll(pf, l, SentAll(disk, before));
            ExtractAll(pf, l, SentAll(disk, before + [e])) ==
            if r.Err? then r else ExtractOne(pf, l, r.value, Entry(HeaderOf(e), Content(disk, e), false))
  {
    var all := before + [e];
    var sent := SentAll(disk, all);
    assert all[..|all| - 1] == before;
    assert sent[..|sent| - 1] == SentAll(disk, before);
  }

  lemma CollisionsSplit(fold: Fold, entries: seq<PlanEntry>)
    requires entries != []
    ensures var n := |entries| - 1;
            NoCollision(fold, entries) <==>
            NoCollision(fold, entries[..n]) && FoldPath(fold, entries[n].rel) !in Folded(fold, entries[..n])
  {
    var n := |entries| - 1;
    if NoCollision(fold, entries) {
      forall e | e in entries[..n] ensures FoldPath(fold, e.rel) != FoldPath(fold, entries[n].rel) {
        var i :| 0 <= i < n && entries[..n][i] == e;
        assert entries[i] == e;
      }
    }
    if NoCollision(fold, entries[..n]) && FoldPath(fold, entries[n].rel) !in Folded(fold, entries[..n]) {
      forall i, j | 0 <= i < j < |entries| ensures FoldPath(fold, entries[i].rel) != FoldPath(fold, entries[j].rel) {
        if j == n {
          assert entries[..n][i] in entries[..n];
        } else {
          assert entries[..n][i] == entries[i] && entries[..n][j] == entries[j];
        }
      }
    }
  }

  /** Round trip: the stream written for a plan is accepted exactly when the receiver's file system keeps its paths apart
      and its folders are within the budget, and then the receiver has the plan. */
  lemma RoundTrip(pf: Platform, fold: Fold, headerLen: Header -> nat, disk: Disk, entries: seq<PlanEntry>)
    requires GoodPlan(pf, entries) && BlockHeaders(headerLen) && WriteTar(headerLen, disk, entries).Ok?
    ensures var size := TarSize(headerLen, entries);
            var r := Extracted(pf, fold, WriteTar(headerLen, disk, entries).value, size);
            && (r.Ok? <==> NoCollision(fold, entries) && Dirs(entries) <= FolderBudget(size))
            && (r.Ok? ==> Recreates(fold, disk, entries, r.value))
  {
    StreamLengthIsTarSize(headerLen, disk, entries);
    TarSumCovers(headerLen, entries);
    var size := TarSize(headerLen, entries);
    ExtractsExactly(pf, Limits(fold, size, FolderBudget(size)), disk, entries);
  }

  /** Every folder that a scan accepts arrives as it was planned: no file changed since, the receiver's file system keeps
      the planned paths apart, and the stream is at most 512 * 2^30 bytes long. */
  lemma ScannedFolderArrives(pf: Platform, fold: Fold, headerLen: Header -> nat, disk: Disk, children: Listing)
    requires WellNamed(children) && Walk(pf, [], children).Ok? && BlockHeaders(headerLen)
    requires Unchanged(disk, Walk(pf, [], children).value) && NoCollision(fold, Walk(pf, [], children).value)
    requires TarSize(headerLen, Walk(pf, [], children).value) <= 512 * 0x4000_0000
    ensures var plan := Walk(pf, [], children).value;
            var size := TarSize(headerLen, plan);
            && WriteTar(headerLen, disk, plan).Ok? && WriteTar(headerLen, disk, plan).value.bytes == size
            && Extracted(pf, fold, WriteTar(headerLen, disk, plan).value, size).Ok?
            && Recreates(fold, disk, plan, Extracted(pf, fold, WriteTar(headerLen, disk, plan).value, size).value)
  {
    var plan := Walk(pf, [], children).value;
    PlanIsGood(pf, children);
    StreamLengthIsTarSize(headerLen, disk, plan);
    BudgetCovers(headerLen, plan);
    RoundTrip(pf, fold, headerLen, disk, plan);
  }
}
