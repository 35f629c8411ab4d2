/** Planning and writing as they run: the scan fills a plan, and the sender loops over its entries. */
module FolderSender {
  import opened Wrappers
  import opened Filenames
  import opened FolderPaths
  import opened FolderExtract
  import opened FolderSend
  import opened FolderRoundTrip

  class DirPlan {
    var entries: seq<PlanEntry>
    var files: nat
    var contentSize: nat
    var tarSize: nat

    ghost predicate Counted()
      reads this
    {
      files == Files(entries) && contentSize == ContentSize(entries)
    }

    ghost predicate Grew(r: Result<seq<PlanEntry>, Error>, before: seq<PlanEntry>, err: Option<Error>)
      reads this
    {
      match r
      case Ok(more) => err == None && entries == before + more
      case Err(e) => err == Some(e)
    }

    constructor ()
      ensures Counted() && entries == []
    {
      entries, files, contentSize, tarSize := [], 0, 0, 0;
    }

    method Append(e: PlanEntry)
      requires Counted()
      modifies this
      ensures Counted() && entries == old(entries) + [e]
    {
      CountOneMore(entries, e);
      if !e.isDir {
        files := files + 1;
        contentSize := contentSize + e.size;
      }
      entries := entries + [e];
    }

    /** Visits the children of the folder at rel in order and appends what is to be sent. */
    method WalkFolder(pf: Platform, rel: Path, children: Listing) returns (err: Option<Error>)
      requires Counted()
      modifies this
      ensures Counted() && Grew(Walk(pf, rel, children), old(entries), err)
      decreases children
    {
      if children.NoMore? { return None; }
      var here := rel + [children.name];
      err := VisitNode(pf, here, children.node);
      if err.Some? { return; }
      ghost var first := entries;
      err := WalkFolder(pf, rel, children.rest);
      GrewTwice(Visit(pf, here, children.node), Walk(pf, rel, children.rest), old(entries), first, err);
    }

    lemma GrewTwice(a: Result<seq<PlanEntry>, Error>, b: Result<seq<PlanEntry>, Error>,
                    before: seq<PlanEntry>, first: seq<PlanEntry>, err: Option<Error>)
      requires a.Ok? && first == before + a.value && Grew(b, first, err)
      ensures b.Err? ==> Grew(b, before, err)
      ensures b.Ok? ==> Grew(Ok(a.value + b.value), before, err)
    {
    }

    method VisitNode(pf: Platform, rel: Path, node: Source) returns (err: Option<Error>)
      requires Counted() && rel != []
      modifies this
      ensures Counted() && Grew(Visit(pf, rel, node), old(entries), err)
      decreases node
    {
      if Skips(rel[|rel| - 1], node) { return None; }
      if !CanSend(pf, rel) { return Some(CannotSend); }
      match node
      case SourceFile(size, exec) => Append(PlanEntry(rel, false, size, exec)); err := None;
      case SourceFolder(children) =>
        Append(PlanEntry(rel, true, 0, false));
        err := WalkFolder(pf, rel, children);
    }

    method Scan(pf: Platform, headerLen: Header -> nat, children: Listing) returns (err: Option<Error>)
      requires Counted() && entries == []
      modifies this
      ensures match Walk(pf, [], children)
              case Ok(plan) =>
                && err == None && entries == plan && tarSize == TarSize(headerLen, plan)
                && files == Files(plan) && contentSize == ContentSize(plan)
              case Err(e) => err == Some(e)
    {
      err := WalkFolder(pf, [], children);
      if err.None? {
        tarSize := SizeOf(headerLen, entries);
      }
    }
  }

  /** The length of the stream for a plan, found without reading any file. */
  method SizeOf(headerLen: Header -> nat, entries: seq<PlanEntry>) returns (total: nat)
    ensures total == TarSize(headerLen, entries)
  {
    total := 0;
    for i := 0 to |entries|
      invariant total == TarSum(headerLen, entries[..i])
    {
      assert entries[..i + 1][..i] == entries[..i];
      var e := entries[i];
      total := total + headerLen(HeaderOf(e)) + (e.size + 511) / 512 * 512;
    }
    assert entries[..|entries|] == entries;
    total := total + 1024;
  }

  lemma {:induction false} WriteErrorStays(headerLen: Header -> nat, disk: Disk, entries: seq<PlanEntry>, i: nat)
    requires i <= |entries| && WriteAll(headerLen, disk, entries[..i]).Err?
    ensures WriteAll(headerLen, disk, entries) == WriteAll(headerLen, disk, entries[..i])
  {
    var n := |entries| - 1;
    if i <= n {
      assert entries[..n][..i] == entries[..i];
      WriteErrorStays(headerLen, disk, entries[..n], i);
    } else {
      assert entries[..i] == entries;
    }
  }

  class TarWriter {
    const headerLen: Header -> nat
    var out: nat
    var pad: nat
    var missing: nat
    var entries: seq<Next>

    ghost function State(): Writer
      reads this
    {
      Writer(out, pad, missing, entries)
    }

    constructor (headerLen: Header -> nat)
      ensures this.headerLen == headerLen && State() == Blank
    {
      this.headerLen := headerLen;
      out, pad, missing, entries := 0, 0, 0, [];
    }

    /** Owed padding goes out first. */
    method PutHeader(h: Header)
      modifies this
      ensures State() == WriteHeader(headerLen, old(State()), h)
    {
      out := out + pad + headerLen(h);
      pad, missing := Padding(h.size), h.size;
      entries := entries + [Entry(h, "", false)];
    }

    method PutBody(data: string)
      requires entries != [] && entries[|entries| - 1].Entry? && |data| == missing
      modifies this
      ensures State() == WriteBody(old(State()), data)
    {
      var last := entries[|entries| - 1];
      entries := entries[|entries| - 1 := last.(body := last.body + data)];
      out, missing := out + |data|, 0;
    }

    method PutEntry(disk: Disk, e: PlanEntry) returns (err: Option<Error>)
      modifies this
      ensures match WriteOne(headerLen, disk, old(State()), e)
              case Ok(w) => err == None && State() == w
              case Err(e) => err == Some(e)
    {
      PutHeader(HeaderOf(e));
      if e.isDir { return None; }
      var data := disk(e.rel);
      if data.None? || |data.value| != e.size { return Some(Changed); }
      PutBody(data.value);
      return None;
    }

    method Write(disk: Disk, plan: seq<PlanEntry>) returns (r: Result<Stream, Error>)
      requires State() == Blank
      modifies this
      ensures r == WriteTar(headerLen, disk, plan)
    {
      for i := 0 to |plan|
        invariant WriteAll(headerLen, disk, plan[..i]) == Ok(State())
      {
        assert plan[..i + 1][..i] == plan[..i];
        var err := PutEntry(disk, plan[i]);
        if err.Some? {
          WriteErrorStays(headerLen, disk, plan, i + 1);
          return Err(err.value);
        }
      }
      assert plan[..|plan|] == plan;
      return Ok(Stream(entries, out + pad + 1024));
    }
  }
}
