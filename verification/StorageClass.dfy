/** The storage as it runs: one upload or one sweep at a time. */
module StorageClass {
  import opened Wrappers
  import opened Filenames
  import opened FolderExtract
  import opened FolderPaths
  import opened FolderExtractor
  import opened StorageModel

  /** What a transfer delivers for a file, and whether reading it failed at the end. */
  datatype Body = Body(bytes: string, failed: bool)

  /** The outcome of finishing an upload whose temporary entry is `temp`. */
  function CommitOutcome(fs: FileSystem, dir: Dir, temp: string, name: string, isDir: bool, stuck: bool)
    : Result<string, Failure>
  {
    match Final(fs, dir, temp, name, isDir, stuck)
    case Err(e) => Err(e)
    case Ok(i) => Ok(NumberedName(name, i, isDir))
  }

  /** Whether the name that was taken is the first free one, while `temp` was also in use. */
  ghost predicate FirstFree(fs: FileSystem, dir: Dir, temp: string, name: string, isDir: bool, final: string) {
    exists i: nat ::
      && i <= MAX_NUMBER && final == NumberedName(name, i, isDir) && Key(fs, name, i, isDir) !in dir
      && forall j: nat | j < i :: Key(fs, name, j, isDir) in dir.Keys + {fs.fold(temp)}
  }

  class Storage {
    const fs: FileSystem
    var dir: Dir

    constructor (fs: FileSystem, dir: Dir)
      ensures this.fs == fs && this.dir == dir
    {
      this.fs, this.dir := fs, dir;
    }

    /** Tries the names in order; reserving, freeing and renaming are one step. */
    method Commit(temp: string, name: string, isDir: bool, stuck: bool) returns (r: Result<string, Failure>)
      modifies this
      ensures r == CommitOutcome(fs, old(dir), temp, name, isDir, stuck)
      ensures dir == if r.Ok? then Moved(fs, old(dir), temp, r.value) else old(dir)
    {
      for i := 0 to MAX_NUMBER + 1
        invariant dir == old(dir)
        invariant Pick(fs, dir.Keys, name, isDir, 0) == Pick(fs, dir.Keys, name, isDir, i)
      {
        var candidate := NumberedName(name, i, isDir);
        if fs.fold(candidate) in dir { continue; }
        if !fs.accepts(candidate) { return Err(CannotReserve); }
        if fs.fold(temp) !in dir || stuck { return Err(CannotRename); }
        dir := Moved(fs, dir, temp, candidate);
        return Ok(candidate);
      }
      return Err(TooManyNames);
    }

    /** Saves a file under the first free name, or leaves nothing. `temp` is the temporary name, if one could be made. */
    method Save(name: string, body: Body, size: nat, temp: Option<string>, now: int, stuck: bool)
      returns (r: Result<string, Failure>)
      requires temp.Some? ==> fs.fold(temp.value) !in dir
      modifies this
      ensures r.Err? ==> dir == old(dir)
      ensures r.Ok? ==>
                && ValidFilename(fs.pf, name) && !body.failed && |body.bytes| == size && temp.Some?
                && FirstFree(fs, old(dir), temp.value, name, false, r.value)
                && dir == old(dir)[fs.fold(r.value) := Stored(r.value, Bytes(body.bytes), now)]
      ensures r.Err? <==> !ValidFilename(fs.pf, name) || temp.None? || body.failed || |body.bytes| != size
                          || CommitOutcome(fs, old(dir)[fs.fold(temp.value) := Stored(temp.value, Bytes(body.bytes), now)],
                                           temp.value, name, false, stuck).Err?
    {
      if !ValidFilename(fs.pf, name) { return Err(BadName); }
      if temp.None? { return Err(NoTemp); }
      var k := fs.fold(temp.value);
      dir := dir[k := Stored(temp.value, Bytes(body.bytes), now)];
      if body.failed || |body.bytes| != size {
        dir := dir - {k};
        return Err(if body.failed then ReadFailure else Short);
      }
      r := CommitOrDrop(old(dir), temp.value, name, false, stuck);
    }

    /** Moves the temporary entry, which is all that was added to `before`, to its final name, or removes it. */
    method CommitOrDrop(ghost before: Dir, temp: string, name: string, isDir: bool, stuck: bool)
      returns (r: Result<string, Failure>)
      requires fs.fold(temp) in dir && fs.fold(temp) !in before && dir == before[fs.fold(temp) := dir[fs.fold(temp)]]
      modifies this
      ensures r == CommitOutcome(fs, old(dir), temp, name, isDir, stuck)
      ensures r.Err? ==> dir == before
      ensures r.Ok? ==>
                && FirstFree(fs, before, temp, name, isDir, r.value)
                && dir == before[fs.fold(r.value) := old(dir)[fs.fold(temp)].(name := r.value)]
    {
      r := Commit(temp, name, isDir, stuck);
      if r.Err? {
        dir := dir - {fs.fold(temp)};
      } else {
        FinalIsFirstFree(fs, before, old(dir), temp, name, isDir, stuck);
      }
    }

    /** What extracting a stream that is accepted puts on disk. */
    ghost function Unpacked(stream: Stream, size: nat): map<Path, Node>
      requires Extracted(fs.pf, fs.fold, stream, size).Ok?
    {
      Extracted(fs.pf, fs.fold, stream, size).value.disk
    }

    method Unpack(stream: Stream, size: nat) returns (tree: map<Path, Node>, counts: Result<(nat, nat), Error>)
      ensures var x := Extracted(fs.pf, fs.fold, stream, size);
              && (counts.Ok? <==> x.Ok?)
              && (counts.Ok? ==> counts.value == (x.value.files, x.value.written) && tree == x.value.disk)
    {
      var ex := new Extractor(fs.pf, fs.fold, size);
      counts := ex.ExtractInto(stream);
      tree := ex.disk;
    }

    /** Extracts a folder and saves it under the first free name, or leaves nothing. */
    method SaveDir(name: string, stream: Stream, size: nat, temp: Option<string>, now: int, stuck: bool)
      returns (r: Result<(string, nat, nat), Failure>)
      requires temp.Some? ==> fs.fold(temp.value) !in dir
      modifies this
      ensures r.Err? ==> dir == old(dir)
      ensures r.Ok? ==>
                var x := Extracted(fs.pf, fs.fold, stream, size);
                && ValidFilename(fs.pf, name) && x.Ok? && temp.Some?
                && r.value.1 == x.value.files && r.value.2 == x.value.written
                && FirstFree(fs, old(dir), temp.value, name, true, r.value.0)
                && dir == old(dir)[fs.fold(r.value.0) := Stored(r.value.0, Tree(x.value.disk), now)]
      ensures r.Err? <==>
                || !ValidFilename(fs.pf, name) || temp.None? || Extracted(fs.pf, fs.fold, stream, size).Err?
                || CommitOutcome(fs, old(dir)[fs.fold(temp.value) := Stored(temp.value, Tree(Unpacked(stream, size)), now)],
                                 temp.value, name, true, stuck).Err?
    {
      if !ValidFilename(fs.pf, name) { return Err(BadName); }
      if temp.None? { return Err(NoTemp); }
      var k := fs.fold(temp.value);
      dir := dir[k := Stored(temp.value, Tree(map[]), now)];
      var tree, counts := Unpack(stream, size);
      dir := dir[k := Stored(temp.value, Tree(tree), now)];
      if counts.Err? {
        dir := dir - {k};
        return Err(BadStream(counts.error));
      }
      var final := CommitOrDrop(old(dir), temp.value, name, true, stuck);
      if final.Err? { return Err(final.error); }
      return Ok((final.value, counts.value.0, counts.value.1));
    }

    /** Removes the temporary entries that nothing has touched for a while; `listing` is the directory's content and `held`
        the entries that cannot be removed. */
    method RemoveStaleParts(listing: seq<string>, held: set<string>, now: int, olderThan: int) returns (removed: nat)
      requires forall k :: k in listing <==> k in dir
      requires forall i, j | 0 <= i < j < |listing| :: listing[i] != listing[j]
      modifies this
      ensures forall k :: k in dir <==> k in old(dir) && (k in held || !Stale(old(dir), k, now, olderThan))
      ensures forall k | k in dir :: dir[k] == old(dir)[k]
      ensures removed == |old(dir).Keys| - |dir.Keys|
    {
      removed := 0;
      ghost var gone: set<string> := {};
      for i := 0 to |listing|
        invariant dir == old(dir) - gone
        invariant forall k :: k in gone <==> k in listing[..i] && k !in held && Stale(old(dir), k, now, olderThan)
        invariant removed == |gone|
      {
        var k := listing[i];
        assert k !in listing[..i];
        if !Stale(dir, k, now, olderThan) || k in held { continue; }
        dir := dir - {k};
        gone := gone + {k};
        removed := removed + 1;
      }
      assert gone <= old(dir).Keys && dir.Keys == old(dir).Keys - gone;
    }
  }

  lemma FinalIsFirstFree(fs: FileSystem, before: Dir, full: Dir, temp: string, name: string, isDir: bool, stuck: bool)
    requires full.Keys == before.Keys + {fs.fold(temp)} && Final(fs, full, temp, name, isDir, stuck).Ok?
    ensures FirstFree(fs, before, temp, name, isDir, CommitOutcome(fs, full, temp, name, isDir, stuck).value)
  {
    var i := Final(fs, full, temp, name, isDir, stuck).value;
    assert Key(fs, name, i, isDir) !in before;
  }
}
