/** Which entries of a stream are accepted, whoever sent them. */
module FolderAcceptance {
  import opened Wrappers
  import opened Filenames
  import opened FolderPaths
  import opened FolderExtract
  import opened FolderStreams

  /** p is a folder that was made, or nothing is in its place. */
  ghost predicate CanBeFolder(l: Limits, x: X, p: Path) {
    Folders(x, p) || (p !in x.created && FoldPath(l.fold, p) !in x.disk)
  }

  /** How many prefixes of rel longer than n are still to be made. */
  function Missing(x: X, rel: Path, n: nat): nat
    decreases |rel| - n
  {
    if n >= |rel| then 0 else (if rel[..n + 1] in x.created then 0 else 1) + Missing(x, rel, n + 1)
  }

  /** The folders that rel needs are there, or can be made within the limit. */
  ghost predicate CanBeMade(l: Limits, x: X, rel: Path, n: nat, refused: bool) {
    && (forall j | n < j <= |rel| :: CanBeFolder(l, x, rel[..j]))
    && x.folders + Missing(x, rel, n) <= l.maxDirs && (refused ==> Missing(x, rel, n) == 0)
  }

  lemma {:induction false} MissingLater(x: X, y: X, rel: Path, n: nat, k: nat)
    requires k <= n && forall j | k < j <= |rel| :: rel[..j] in x.created <==> rel[..j] in y.created
    ensures Missing(x, rel, n) == Missing(y, rel, n)
    decreases |rel| - n
  {
    if n < |rel| {
      MissingLater(x, y, rel, n + 1, k);
    }
  }

  /** Making one prefix does not touch the longer ones. */
  lemma OneMade(l: Limits, x: X, rel: Path, n: nat, refused: bool)
    requires n < |rel| && MakeOne(l, x, rel[..n + 1], refused).Ok?
    ensures var y := MakeOne(l, x, rel[..n + 1], refused).value;
            forall j | n + 1 < j <= |rel| ::
              (rel[..j] in x.created <==> rel[..j] in y.created) && (CanBeFolder(l, x, rel[..j]) <==> CanBeFolder(l, y, rel[..j]))
  {
    var y := MakeOne(l, x, rel[..n + 1], refused).value;
    forall j | n + 1 < j <= |rel|
      ensures (rel[..j] in x.created <==> rel[..j] in y.created) && (CanBeFolder(l, x, rel[..j]) <==> CanBeFolder(l, y, rel[..j]))
    {
      assert |FoldPath(l.fold, rel[..j])| == j && |FoldPath(l.fold, rel[..n + 1])| == n + 1;
    }
  }

  lemma {:induction false} MadeIff(l: Limits, x: X, rel: Path, n: nat, refused: bool)
    requires n <= |rel| && x.folders <= l.maxDirs
    ensures MakeFrom(l, x, rel, n, refused).Ok? <==> CanBeMade(l, x, rel, n, refused)
    ensures CanBeMade(l, x, rel, n, false) && MakeFrom(l, x, rel, n, refused).Err? ==>
              refused && MakeFrom(l, x, rel, n, refused).error == Refused
    decreases |rel| - n
  {
    if n < |rel| {
      var r := MakeOne(l, x, rel[..n + 1], refused);
      if r.Ok? {
        OneMade(l, x, rel, n, refused);
        MadeIff(l, r.value, rel, n + 1, refused);
        MissingLater(x, r.value, rel, n + 1, n + 1);
      }
    }
  }

  /** Making the folders above rel does not touch rel. */
  lemma {:induction false} AboveMade(l: Limits, x: X, parent: Path, n: nat, refused: bool, rel: Path)
    requires n <= |parent| < |rel| && MakeFrom(l, x, parent, n, refused).Ok?
    ensures var y := MakeFrom(l, x, parent, n, refused).value;
            && (rel in y.created <==> rel in x.created)
            && (FoldPath(l.fold, rel) in y.disk <==> FoldPath(l.fold, rel) in x.disk)
    decreases |parent| - n
  {
    if n < |parent| {
      assert |FoldPath(l.fold, rel)| == |rel| && |FoldPath(l.fold, parent[..n + 1])| == n + 1;
      AboveMade(l, MakeOne(l, x, parent[..n + 1], refused).value, parent, n + 1, refused, rel);
    }
  }

  /** A new file: it fits into what is left of the stream, all of it came, nothing is in its place, and its folders are there
      or can be made. */
  ghost predicate CanBeWritten(l: Limits, x: X, rel: Path, entry: Next)
    requires rel != [] && entry.Entry?
  {
    && entry.hdr.size <= l.limit - x.written && |entry.body| >= entry.hdr.size && !entry.refused
    && rel !in x.created && FoldPath(l.fold, rel) !in x.disk
    && CanBeMade(l, x, rel[..|rel| - 1], 0, false)
  }

  lemma WrittenIff(l: Limits, x: X, rel: Path, entry: Next)
    requires rel != [] && entry.Entry? && x.folders <= l.maxDirs
    ensures WriteEntry(l, x, rel, entry).Ok? <==> CanBeWritten(l, x, rel, entry)
  {
    var parent := rel[..|rel| - 1];
    MadeIff(l, x, parent, 0, entry.refused);
    if MakeAll(l, x, parent, entry.refused).Ok? {
      AboveMade(l, x, parent, 0, entry.refused, rel);
    }
  }

  /** An entry that can be taken. */
  ghost predicate Admissible(pf: Platform, l: Limits, x: X, next: Next) {
    && RelOf(pf, next).Some? && !next.hdr.sparse
    && var rel := RelOf(pf, next).value;
       rel == [] ||
       match next.hdr.kind
       case Directory => CanBeMade(l, x, rel, 0, next.refused)
       case Regular => CanBeWritten(l, x, rel, next)
       case OtherType => false
  }

  lemma TakenIff(l: Limits, x: X, rel: Path, next: Next)
    requires next.Entry? && x.folders <= l.maxDirs
    ensures Taken(l, x, rel, next).Ok? <==>
            rel == [] ||
            match next.hdr.kind
            case Directory => CanBeMade(l, x, rel, 0, next.refused)
            case Regular => CanBeWritten(l, x, rel, next)
            case OtherType => false
  {
    MadeIff(l, x, rel, 0, next.refused);
    if rel != [] { WrittenIff(l, x, rel, next); }
  }

  /** Exactly the admissible entries are accepted. */
  lemma AcceptedIff(pf: Platform, l: Limits, x: X, next: Next)
    requires x.folders <= l.maxDirs
    ensures ExtractOne(pf, l, x, next).Ok? <==> Admissible(pf, l, x, next)
  {
    TakenAs(pf, l, x, next);
    if RelOf(pf, next).Some? { TakenIff(l, x, RelOf(pf, next).value, next); }
  }

  lemma NoneBlamed(l: Limits, x: X, rel: Path, next: Next, body: string)
    requires next.Entry? && x.folders <= l.maxDirs && rel != [] && next.hdr.kind.Regular?
    requires CanBeWritten(l, x, rel, next.(refused := false, body := body)) && WriteEntry(l, x, rel, next).Err?
    ensures WriteEntry(l, x, rel, next).error == (if next.refused then Refused else ReadFailed)
  {
    var parent := rel[..|rel| - 1];
    MadeIff(l, x, parent, 0, next.refused);
    if MakeAll(l, x, parent, next.refused).Ok? {
      AboveMade(l, x, parent, 0, next.refused, rel);
    }
  }

  /** An entry that the file system refuses, or that was cut short, but that could be taken otherwise, is not called invalid. */
  lemma NotBlamed(pf: Platform, l: Limits, x: X, next: Next, body: string)
    requires x.folders <= l.maxDirs && next.Entry? && ExtractOne(pf, l, x, next).Err?
    requires Admissible(pf, l, x, next.(refused := false, body := body))
    ensures ExtractOne(pf, l, x, next).error == (if next.refused then Refused else ReadFailed)
  {
    var rel := RelOf(pf, next).value;
    TakenAs(pf, l, x, next);
    assert RelOf(pf, next.(refused := false, body := body)) == RelOf(pf, next);
    if next.hdr.kind.Directory? {
      MadeIff(l, x, rel, 0, next.refused);
    } else if rel != [] {
      NoneBlamed(l, x, rel, next, body);
    }
  }
}
